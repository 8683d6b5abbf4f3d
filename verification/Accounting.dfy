// Every delivery of every broadcast is accounted for, in every interleaving.
module Accounting {
  import opened Sharding
  import opened RoomProtocol
  import opened RoomInvariants

  /** The broadcast numbers among some buffer items, in order. */
  function LiveNumbers(xs: seq<Item>): seq<nat> {
    if xs == [] then []
    else LiveNumbers(xs[..|xs| - 1]) + (if xs[|xs| - 1].Live? then [xs[|xs| - 1].b] else [])
  }

  function Times(xs: seq<nat>, x: nat): nat { multiset(xs)[x] }

  function CountLive(xs: seq<Item>, b: nat): nat { Times(LiveNumbers(xs), b) }

  lemma LiveAppend(xs: seq<Item>, x: Item)
    ensures LiveNumbers(xs + [x]) == LiveNumbers(xs) + (if x.Live? then [x.b] else [])
  {
    assert (xs + [x])[..|xs|] == xs;
  }

  lemma {:induction false} LiveConcat(xs: seq<Item>, ys: seq<Item>)
    ensures LiveNumbers(xs + ys) == LiveNumbers(xs) + LiveNumbers(ys)
    decreases |ys|
  {
    if ys == [] {
      assert xs + ys == xs;
    } else {
      var n := |ys| - 1;
      assert xs + ys == (xs + ys[..n]) + [ys[n]] && ys == ys[..n] + [ys[n]];
      LiveConcat(xs, ys[..n]);
      LiveAppend(xs + ys[..n], ys[n]);
      LiveAppend(ys[..n], ys[n]);
    }
  }

  /** What a read loop still has to deliver: a broadcast and the clients left. */
  function Flight(p: Phase): (nat, seq<Cid>) {
    if (p.Delivering? || p.Submitting?) && p.rest != [] then (p.b, p.rest) else (0, [])
  }

  /** The worker that gets the next shard. */
  function NextShard(p: Phase): nat { if p.Submitting? && p.rest != [] then p.next else 0 }

  function InFlight(p: Phase, c: Cid, b: nat): nat {
    if Flight(p).0 == b then multiset(Flight(p).1)[c] else 0
  }

  function JobCount(job: Job<nat, Cid>, c: Cid, b: nat): nat {
    if job.message == b then multiset(job.clients)[c] else 0
  }

  function JobsCount(jobs: seq<Job<nat, Cid>>, c: Cid, b: nat): nat {
    if jobs == [] then 0 else JobCount(jobs[0], c, b) + JobsCount(jobs[1..], c, b)
  }

  lemma {:induction false} JobsAppend(jobs: seq<Job<nat, Cid>>, job: Job<nat, Cid>, c: Cid, b: nat)
    ensures JobsCount(jobs + [job], c, b) == JobsCount(jobs, c, b) + JobCount(job, c, b)
    decreases |jobs|
  {
    if jobs == [] {
      assert jobs + [job] == [job];
    } else {
      assert (jobs + [job])[1..] == jobs[1..] + [job];
      JobsAppend(jobs[1..], job, c, b);
    }
  }

  function WorkerCount(wk: Worker, c: Cid, b: nat): nat {
    JobCount(wk.hand, c, b) + JobsCount(wk.queue, c, b)
  }

  function WorkersCount(ws: seq<Worker>, c: Cid, b: nat): nat {
    if ws == [] then 0 else WorkerCount(ws[0], c, b) + WorkersCount(ws[1..], c, b)
  }

  lemma {:induction false} WorkersUpdate(ws: seq<Worker>, w: nat, wk: Worker, c: Cid, b: nat)
    requires w < |ws|
    ensures WorkersCount(ws[w := wk], c, b) + WorkerCount(ws[w], c, b) == WorkersCount(ws, c, b) + WorkerCount(wk, c, b)
    decreases |ws|
  {
    if w == 0 {
      assert ws[w := wk][1..] == ws[1..];
    } else {
      assert ws[w := wk][1..] == ws[1..][w - 1 := wk];
      WorkersUpdate(ws[1..], w - 1, wk, c, b);
    }
  }

  lemma {:induction false} IdleWorkersCount(ws: seq<Worker>, c: Cid, b: nat)
    requires forall w :: 0 <= w < |ws| ==> ws[w].queue == [] && ws[w].hand.clients == []
    ensures WorkersCount(ws, c, b) == 0
    decreases |ws|
  {
    if ws != [] {
      IdleWorkersCount(ws[1..], c, b);
    }
  }

  // Where the delivery of broadcast b to client c may be.

  /** Put in c's send buffer, whether or not the writer has taken it yet. */
  function Accepted(s: State, c: Cid, b: nat): nat { if At(s, c) then CountLive(s.clients[c].hist, b) else 0 }

  /** Dropped because c's send buffer was full. */
  function Refused(s: State, c: Cid, b: nat): nat { if At(s, c) then CountLive(s.clients[c].dropped, b) else 0 }

  /** Still ahead in the sender's own delivery or submit loop. */
  function AtSender(s: State, c: Cid, b: nat): nat {
    if b < |s.log| && At(s, s.log[b].sender) then InFlight(s.clients[s.log[b].sender].phase, c, b) else 0
  }

  /** In a worker's queue or hands. */
  function AtWorkers(s: State, c: Cid, b: nat): nat { WorkersCount(s.workers, c, b) }

  /** Dropped with a shard because a worker queue was full. */
  function ShardDropped(s: State, c: Cid, b: nat): nat { JobsCount(s.shardDrops, c, b) }

  /** Abandoned by a sender whose handler panicked. */
  function GivenUp(s: State, c: Cid, b: nat): nat { JobsCount(s.lost, c, b) }

  /** The snapshot of broadcast b holds c. */
  function Offered(s: State, c: Cid, b: nat): nat { if b < |s.log| then multiset(s.log[b].snapshot)[c] else 0 }

  function Ledger(s: State, c: Cid, b: nat): nat {
    Accepted(s, c, b) + Refused(s, c, b) + AtSender(s, c, b) + AtWorkers(s, c, b) + ShardDropped(s, c, b)
        + GivenUp(s, c, b)
  }

  predicate Balanced(s: State, c: Cid, b: nat) { Ledger(s, c, b) == Offered(s, c, b) }

  predicate SameFlow(x: Client, y: Client) {
    x.hist == y.hist && x.dropped == y.dropped && Flight(x.phase) == Flight(y.phase)
        && NextShard(x.phase) == NextShard(y.phase)
  }

  /** No delivery moves between s and s'. */
  ghost predicate SameTraffic(s: State, s': State) {
    && s'.log == s.log && s'.workers == s.workers && s'.shardDrops == s.shardDrops && s'.lost == s.lost
    && |s.clients| <= |s'.clients|
    && (forall d: nat :: d < |s.clients| ==> SameFlow(s.clients[d], s'.clients[d]))
    && (forall d: nat :: |s.clients| <= d < |s'.clients| ==> s'.clients[d].hist == [] && s'.clients[d].dropped == [])
  }

  predicate QuietStep(a: Step) {
    || a.Connect? || a.AddLock? || a.AddCheck? || a.Query? || a.Start? || a.TypingFrame? || a.Persist?
    || a.PersistElsewhere? || a.Skip? || a.Finish? || a.Remove? || a.Consume? || a.ShutStart? || a.ShutReturn?
  }

  // Joining, handling a frame, consuming and leaving move no delivery.
  lemma QuietTraffic(s: State, a: Step)
    requires Sane(s) && Enabled(s, a) && QuietStep(a)
    ensures SameTraffic(s, Apply(s, a))
  {
    if QuietJoin(a) { QuietJoinTraffic(s, a); }
    else if a.Persist? || a.PersistElsewhere? { PersistTraffic(s, a); }
    else if QuietFrame(a) { QuietFrameTraffic(s, a); } else { QuietRestTraffic(s, a); }
  }

  predicate QuietJoin(a: Step) { a.Connect? || a.AddLock? || a.AddCheck? || a.Query? || a.Start? }

  predicate QuietFrame(a: Step) { a.TypingFrame? || a.Skip? || a.Finish? }

  lemma QuietJoinTraffic(s: State, a: Step)
    requires Sane(s) && Enabled(s, a) && QuietJoin(a)
    ensures SameTraffic(s, Apply(s, a))
  {}

  lemma QuietFrameTraffic(s: State, a: Step)
    requires Sane(s) && Enabled(s, a) && QuietFrame(a)
    ensures SameTraffic(s, Apply(s, a))
  {}

  lemma PersistTraffic(s: State, a: Step)
    requires Sane(s) && Enabled(s, a) && (a.Persist? || a.PersistElsewhere?)
    ensures SameTraffic(s, Apply(s, a))
  {}

  lemma QuietRestTraffic(s: State, a: Step)
    requires Sane(s) && Enabled(s, a) && (a.Remove? || a.Consume? || a.ShutStart? || a.ShutReturn?)
    ensures SameTraffic(s, Apply(s, a))
  {}

  lemma SameTrafficBalance(s: State, s': State, c: Cid, b: nat)
    requires Shape(s) && SameTraffic(s, s')
    ensures Ledger(s', c, b) == Ledger(s, c, b) && Offered(s', c, b) == Offered(s, c, b)
  {
    SameTrafficAtSender(s, s', c, b);
  }

  lemma SameTrafficAtSender(s: State, s': State, c: Cid, b: nat)
    requires Shape(s) && SameTraffic(s, s')
    ensures AtSender(s', c, b) == AtSender(s, c, b)
  {
    if b < |s.log| { assert BcastOK(s.log[b], |s.clients|); }
  }

  lemma CountAppend(xs: seq<Item>, x: Item, b: nat)
    ensures CountLive(xs + [x], b) == CountLive(xs, b) + (if x.Live? && x.b == b then 1 else 0)
  {
    LiveAppend(xs, x);
  }

  lemma AcceptCounts(cl: Client, x: Item, b: nat)
    requires cl.taken <= |cl.hist|
    ensures CountLive(Accept(cl, x).hist, b) + CountLive(Accept(cl, x).dropped, b)
         == CountLive(cl.hist, b) + CountLive(cl.dropped, b) + (if x.Live? && x.b == b then 1 else 0)
  {
    if |cl.hist| - cl.taken < SEND_BUFFER { CountAppend(cl.hist, x, b); } else { CountAppend(cl.dropped, x, b); }
  }

  /** Item x was offered to client d; no other buffer changed. */
  ghost predicate BuffersGain(s: State, s': State, d: Cid, x: Item) {
    && |s'.clients| == |s.clients| && d < |s.clients| && s.clients[d].taken <= |s.clients[d].hist|
    && s'.clients[d].hist == Accept(s.clients[d], x).hist && s'.clients[d].dropped == Accept(s.clients[d], x).dropped
    && (forall e: nat :: e < |s.clients| && e != d ==>
         s'.clients[e].hist == s.clients[e].hist && s'.clients[e].dropped == s.clients[e].dropped)
  }

  lemma GainCounts(s: State, s': State, d: Cid, x: Item, c: Cid, b: nat)
    requires BuffersGain(s, s', d, x)
    ensures Accepted(s', c, b) + Refused(s', c, b)
         == Accepted(s, c, b) + Refused(s, c, b) + (if c == d && x.Live? && x.b == b then 1 else 0)
  {
    AcceptCounts(s.clients[d], x, b);
  }

  /** Only client c0's loop moved. */
  ghost predicate OneLoopMoved(s: State, s': State, c0: Cid) {
    && s'.log == s.log && |s'.clients| == |s.clients| && c0 < |s.clients|
    && (forall e: nat :: e < |s.clients| && e != c0 ==> Flight(s'.clients[e].phase) == Flight(s.clients[e].phase))
  }

  // The sender of broadcast p.b gave up what it had left, down to the given rest.
  lemma LoopCounts(s: State, s': State, c0: Cid, rest: seq<Cid>, c: Cid, b: nat)
    requires OneLoopMoved(s, s', c0) && (s.clients[c0].phase.Delivering? || s.clients[c0].phase.Submitting?)
    requires var p := s.clients[c0].phase; p.b < |s.log| && s.log[p.b].sender == c0 && p.rest != []
    requires Flight(s'.clients[c0].phase) == (if rest == [] then (0, []) else (s.clients[c0].phase.b, rest))
    ensures var p := s.clients[c0].phase;
            AtSender(s', c, b) + (if b == p.b then multiset(p.rest)[c] else 0)
            == AtSender(s, c, b) + (if b == p.b then multiset(rest)[c] else 0)
  {
    if rest == [] { assert multiset(rest)[c] == 0; }
  }

  // A send into one's own buffer of something other than a broadcast.
  lemma OwnItemBalance(s: State, a: Step, c: Cid, b: nat)
    requires Shape(s) && Sane(s) && Enabled(s, a) && (a.SelfError? || a.Replay?) && Balanced(s, c, b)
    ensures Balanced(Apply(s, a), c, b)
  {
    if a.SelfError? { NoticeBalance(s, a.c, c, b); } else { ReplayBalance(s, a.c, a.ok, c, b); }
  }

  lemma NoticeBalance(s: State, c0: Cid, c: Cid, b: nat)
    requires Shape(s) && Sane(s) && Enabled(s, SelfError(c0)) && Balanced(s, c, b)
    ensures Balanced(Apply(s, SelfError(c0)), c, b)
  {
    var s' := Apply(s, SelfError(c0));
    assert OneLoopMoved(s, s', c0);
    GainCounts(s, s', c0, Notice, c, b);
    if b < |s.log| { assert BcastOK(s.log[b], |s.clients|); }
  }

  lemma ReplayBalance(s: State, c0: Cid, ok: bool, c: Cid, b: nat)
    requires Shape(s) && Sane(s) && Enabled(s, Replay(c0, ok)) && Balanced(s, c, b)
    ensures Balanced(Apply(s, Replay(c0, ok)), c, b)
  {
    var s' := Apply(s, Replay(c0, ok));
    assert OneLoopMoved(s, s', c0);
    if ok { GainCounts(s, s', c0, Past(s.clients[c0].phase.rest[0]), c, b); }
    if b < |s.log| { assert BcastOK(s.log[b], |s.clients|); }
  }

  ghost predicate SameBuffers(s: State, s': State) {
    && |s'.clients| == |s.clients|
    && forall e: nat :: e < |s.clients| ==>
         s'.clients[e].hist == s.clients[e].hist && s'.clients[e].dropped == s.clients[e].dropped
  }

  ghost predicate SameClientTraffic(s: State, s': State) {
    && s'.log == s.log && s'.shardDrops == s.shardDrops && s'.lost == s.lost && SameBuffers(s, s')
    && forall e: nat :: e < |s.clients| ==> Flight(s'.clients[e].phase) == Flight(s.clients[e].phase)
  }

  // A worker changed without gaining or losing work.
  lemma WorkerFlagBalance(s: State, s': State, w: nat, c: Cid, b: nat)
    requires SameClientTraffic(s, s') && w < |s.workers| && |s'.workers| == |s.workers|
             && s'.workers == s.workers[w := s'.workers[w]]
    requires WorkerCount(s'.workers[w], c, b) == WorkerCount(s.workers[w], c, b) && Balanced(s, c, b)
    ensures Balanced(s', c, b)
  {
    WorkersUpdate(s.workers, w, s'.workers[w], c, b);
  }

  lemma ActivateBalance(s: State, c0: Cid, c: Cid, b: nat)
    requires Shape(s) && Sane(s) && Enabled(s, Activate(c0)) && Balanced(s, c, b)
    ensures Balanced(Apply(s, Activate(c0)), c, b)
  {
    var s' := Apply(s, Activate(c0));
    if !s.hasPool { IdleWorkersCount(s'.workers, c, b); }
    assert SameClientTraffic(s, s');
  }

  lemma PoolFlagBalance(s: State, a: Step, c: Cid, b: nat)
    requires Shape(s) && Sane(s) && Enabled(s, a) && (a.Exit? || a.ShutClose?) && Balanced(s, c, b)
    ensures Balanced(Apply(s, a), c, b)
  {
    if a.Exit? {
      WorkerFlagBalance(s, Apply(s, a), a.w, c, b);
    } else if s.shut.k < |s.workers| {
      WorkerFlagBalance(s, Apply(s, a), s.shut.k, c, b);
    }
  }

  // Starting a broadcast puts one delivery per snapshot client on the books.
  lemma SnapshotBalance(s: State, c0: Cid, order: seq<Cid>, c: Cid, b: nat)
    requires Shape(s) && Sane(s) && Enabled(s, Snapshot(c0, order)) && Balanced(s, c, b)
    ensures Balanced(Apply(s, Snapshot(c0, order)), c, b)
  {
    SnapshotKeepsRest(s, c0, order, c, b);
    SnapshotAddsDeliveries(s, c0, order, c, b);
  }

  lemma SnapshotKeepsRest(s: State, c0: Cid, order: seq<Cid>, c: Cid, b: nat)
    requires Sane(s) && Enabled(s, Snapshot(c0, order))
    ensures var s' := Apply(s, Snapshot(c0, order));
            && Accepted(s', c, b) == Accepted(s, c, b) && Refused(s', c, b) == Refused(s, c, b)
            && AtWorkers(s', c, b) == AtWorkers(s, c, b) && ShardDropped(s', c, b) == ShardDropped(s, c, b)
            && GivenUp(s', c, b) == GivenUp(s, c, b)
  {}

  lemma SnapshotAddsDeliveries(s: State, c0: Cid, order: seq<Cid>, c: Cid, b: nat)
    requires Shape(s) && Sane(s) && Enabled(s, Snapshot(c0, order))
    ensures var s' := Apply(s, Snapshot(c0, order));
            AtSender(s', c, b) - AtSender(s, c, b) == Offered(s', c, b) - Offered(s, c, b)
  {
    var s' := Apply(s, Snapshot(c0, order));
    if b < |s.log| {
      assert BcastOK(s.log[b], |s.clients|) && s'.log[b] == s.log[b];
    } else if b == |s.log| {
      assert s'.log[b].snapshot == order;
      if order == [] { assert multiset(order)[c] == 0; }
    }
  }

  lemma CountSplit(xs: seq<Cid>, n: nat, c: Cid)
    requires n <= |xs|
    ensures multiset(xs)[c] == multiset(xs[..n])[c] + multiset(xs[n..])[c]
  {
    assert xs == xs[..n] + xs[n..];
  }

  /** The loop of client c0 gives up what it has left, down to `rest`. */
  ghost predicate LoopShrinks(s: State, s': State, c0: Cid, rest: seq<Cid>) {
    && OneLoopMoved(s, s', c0) && (s.clients[c0].phase.Delivering? || s.clients[c0].phase.Submitting?)
    && s.clients[c0].phase.b < |s.log| && s.log[s.clients[c0].phase.b].sender == c0 && s.clients[c0].phase.rest != []
    && Flight(s'.clients[c0].phase) == (if rest == [] then (0, []) else (s.clients[c0].phase.b, rest))
  }

  lemma DeliveredBalance(s: State, s': State, c0: Cid, c: Cid, b: nat)
    requires At(s, c0) && s.clients[c0].phase.Delivering? && s.clients[c0].phase.rest != []
    requires LoopShrinks(s, s', c0, s.clients[c0].phase.rest[1..])
    requires BuffersGain(s, s', s.clients[c0].phase.rest[0], Live(s.clients[c0].phase.b, Direct))
    requires s'.workers == s.workers && s'.shardDrops == s.shardDrops && s'.lost == s.lost && Balanced(s, c, b)
    ensures Balanced(s', c, b)
  {
    var p := s.clients[c0].phase;
    CountSplit(p.rest, 1, c);
    assert p.rest[..1] == [p.rest[0]];
    GainCounts(s, s', p.rest[0], Live(p.b, Direct), c, b);
    LoopCounts(s, s', c0, p.rest[1..], c, b);
  }

  lemma LostBalance(s: State, s': State, c0: Cid, c: Cid, b: nat)
    requires At(s, c0) && LoopShrinks(s, s', c0, []) && SameBuffers(s, s')
    requires s'.workers == s.workers && s'.shardDrops == s.shardDrops && Balanced(s, c, b)
    requires s'.lost == s.lost + [Job(s.clients[c0].phase.b, s.clients[c0].phase.rest)]
    ensures Balanced(s', c, b)
  {
    LoopCounts(s, s', c0, [], c, b);
    JobsAppend(s.lost, Job(s.clients[c0].phase.b, s.clients[c0].phase.rest), c, b);
  }

  lemma ShardedBalance(s: State, s': State, c0: Cid, w: nat, n: nat, c: Cid, b: nat)
    requires At(s, c0) && s.clients[c0].phase.Submitting? && n <= |s.clients[c0].phase.rest| && w < |s.workers|
    requires LoopShrinks(s, s', c0, s.clients[c0].phase.rest[n..]) && SameBuffers(s, s')
    requires s'.lost == s.lost && Balanced(s, c, b)
    requires var job := Job(s.clients[c0].phase.b, s.clients[c0].phase.rest[..n]);
             || (s'.workers == s.workers && s'.shardDrops == s.shardDrops + [job])
             || (s'.shardDrops == s.shardDrops
                  && s'.workers == s.workers[w := s.workers[w].(queue := s.workers[w].queue + [job])])
    ensures Balanced(s', c, b)
  {
    var p := s.clients[c0].phase;
    var job := Job(p.b, p.rest[..n]);
    var wk := s.workers[w];
    CountSplit(p.rest, n, c);
    LoopCounts(s, s', c0, p.rest[n..], c, b);
    JobsAppend(wk.queue, job, c, b);
    JobsAppend(s.shardDrops, job, c, b);
    WorkersUpdate(s.workers, w, wk.(queue := wk.queue + [job]), c, b);
  }

  lemma DeliverBalance(s: State, c0: Cid, c: Cid, b: nat)
    requires Shape(s) && Sane(s) && Enabled(s, Deliver(c0)) && Balanced(s, c, b)
    ensures Balanced(Apply(s, Deliver(c0)), c, b)
  {
    if s.clients[s.clients[c0].phase.rest[0]].phase.Gone? { ClosedDeliverBalance(s, c0, c, b); }
    else { OpenDeliverBalance(s, c0, c, b); }
  }

  lemma ClosedDeliverBalance(s: State, c0: Cid, c: Cid, b: nat)
    requires Shape(s) && Sane(s) && Enabled(s, Deliver(c0)) && Balanced(s, c, b)
    requires s.clients[s.clients[c0].phase.rest[0]].phase.Gone?
    ensures Balanced(Apply(s, Deliver(c0)), c, b)
  {
    assert ClientOK(s, c0, s.clients[c0]);
    LostBalance(s, Apply(s, Deliver(c0)), c0, c, b);
  }

  lemma OpenDeliverBalance(s: State, c0: Cid, c: Cid, b: nat)
    requires Shape(s) && Sane(s) && Enabled(s, Deliver(c0)) && Balanced(s, c, b)
    requires !s.clients[s.clients[c0].phase.rest[0]].phase.Gone?
    ensures Balanced(Apply(s, Deliver(c0)), c, b)
  {
    assert ClientOK(s, c0, s.clients[c0]);
    DeliveredBalance(s, Apply(s, Deliver(c0)), c0, c, b);
  }

  lemma EnqueueBalance(s: State, c0: Cid, c: Cid, b: nat)
    requires Shape(s) && Sane(s) && Enabled(s, Enqueue(c0)) && Balanced(s, c, b)
    ensures Balanced(Apply(s, Enqueue(c0)), c, b)
  {
    var p := s.clients[c0].phase;
    assert ClientOK(s, c0, s.clients[c0]);
    ShardRoom(|p.rest|, |s.workers|, p.next, p.chunk);
    if s.workers[p.next].closed { ClosedEnqueueBalance(s, c0, c, b); } else { OpenEnqueueBalance(s, c0, c, b); }
  }

  lemma ClosedEnqueueBalance(s: State, c0: Cid, c: Cid, b: nat)
    requires Shape(s) && Sane(s) && Enabled(s, Enqueue(c0)) && Balanced(s, c, b)
    requires s.clients[c0].phase.next < |s.workers| && s.workers[s.clients[c0].phase.next].closed
    ensures Balanced(Apply(s, Enqueue(c0)), c, b)
  {
    assert ClientOK(s, c0, s.clients[c0]);
    LostBalance(s, Apply(s, Enqueue(c0)), c0, c, b);
  }

  lemma OpenEnqueueBalance(s: State, c0: Cid, c: Cid, b: nat)
    requires Shape(s) && Sane(s) && Enabled(s, Enqueue(c0)) && Balanced(s, c, b)
    requires s.clients[c0].phase.next < |s.workers| && !s.workers[s.clients[c0].phase.next].closed
    ensures Balanced(Apply(s, Enqueue(c0)), c, b)
  {
    var p := s.clients[c0].phase;
    assert ClientOK(s, c0, s.clients[c0]);
    ShardedBalance(s, Apply(s, Enqueue(c0)), c0, p.next, Min(p.chunk, |p.rest|), c, b);
  }

  lemma TakeBalance(s: State, w: nat, c: Cid, b: nat)
    requires Shape(s) && Sane(s) && Enabled(s, Take(w)) && Balanced(s, c, b)
    ensures Balanced(Apply(s, Take(w)), c, b)
  {
    assert multiset(s.workers[w].hand.clients)[c] == 0;
    WorkerFlagBalance(s, Apply(s, Take(w)), w, c, b);
  }

  lemma SentBalance(s: State, s': State, w: nat, c: Cid, b: nat)
    requires s'.log == s.log && s'.shardDrops == s.shardDrops && s'.lost == s.lost && |s'.clients| == |s.clients|
    requires forall e: nat :: e < |s.clients| ==> Flight(s'.clients[e].phase) == Flight(s.clients[e].phase)
    requires w < |s.workers| && s.workers[w].hand.clients != []
    requires var hand := s.workers[w].hand;
             && BuffersGain(s, s', hand.clients[0], Live(hand.message, Via(w)))
             && s'.workers == s.workers[w := s.workers[w].(hand := Job(hand.message, hand.clients[1..]))]
    requires Balanced(s, c, b)
    ensures Balanced(s', c, b)
  {
    var hand := s.workers[w].hand;
    CountSplit(hand.clients, 1, c);
    assert hand.clients[..1] == [hand.clients[0]];
    WorkersUpdate(s.workers, w, s'.workers[w], c, b);
    GainCounts(s, s', hand.clients[0], Live(hand.message, Via(w)), c, b);
  }

  lemma SendBalance(s: State, w: nat, c: Cid, b: nat)
    requires Shape(s) && Sane(s) && Enabled(s, Send(w)) && Balanced(s, c, b)
    ensures Balanced(Apply(s, Send(w)), c, b)
  {
    if !s.clients[s.workers[w].hand.clients[0]].phase.Gone? {
      SentBalance(s, Apply(s, Send(w)), w, c, b);
    }
  }

  lemma LoudBalance(s: State, a: Step, c: Cid, b: nat)
    requires Shape(s) && Sane(s) && Enabled(s, a) && !QuietStep(a) && Balanced(s, c, b)
    ensures Balanced(Apply(s, a), c, b)
  {
    match a
    case SelfError(_) | Replay(_, _) => OwnItemBalance(s, a, c, b);
    case Activate(c0) => ActivateBalance(s, c0, c, b);
    case Exit(_) | ShutClose => PoolFlagBalance(s, a, c, b);
    case Snapshot(c0, order) => SnapshotBalance(s, c0, order, c, b);
    case Deliver(c0) => DeliverBalance(s, c0, c, b);
    case Enqueue(c0) => EnqueueBalance(s, c0, c, b);
    case Take(w) => TakeBalance(s, w, c, b);
    case Send(w) => SendBalance(s, w, c, b);
  }

  lemma StepBalance(s: State, a: Step, c: Cid, b: nat)
    requires Shape(s) && Sane(s) && Enabled(s, a) && Balanced(s, c, b)
    ensures Balanced(Apply(s, a), c, b)
  {
    if QuietStep(a) {
      QuietTraffic(s, a);
      SameTrafficBalance(s, Apply(s, a), c, b);
    } else {
      LoudBalance(s, a, c, b);
    }
  }

  lemma {:induction false} RunBalance(s: State, steps: seq<Step>, c: Cid, b: nat)
    requires Shape(s) && Legal(s, steps) && Balanced(s, c, b)
    ensures Balanced(Exec(s, steps), c, b)
    decreases |steps|
  {
    if steps != [] {
      StepKeepsShape(s, steps[0]);
      StepBalance(s, steps[0], c, b);
      RunBalance(Apply(s, steps[0]), steps[1..], c, b);
    }
  }

  lemma ReachableBalance(s: State, c: Cid, b: nat)
    requires Reachable(s)
    ensures Shape(s) && Balanced(s, c, b)
  {
    var steps :| Legal(Init(s.limit), steps) && Exec(Init(s.limit), steps) == s;
    RunKeepsShape(Init(s.limit), steps);
    RunBalance(Init(s.limit), steps, c, b);
  }

  lemma {:induction false} DistinctCount(xs: seq<Cid>, c: Cid)
    requires NoDuplicates(xs)
    ensures multiset(xs)[c] == (if c in xs then 1 else 0)
    decreases |xs|
  {
    if xs != [] {
      DistinctCount(xs[1..], c);
      CountSplit(xs, 1, c);
      assert xs[..1] == [xs[0]];
      assert forall i :: 0 <= i < |xs[1..]| ==> xs[1..][i] == xs[i + 1];
      assert xs[0] !in xs[1..];
    }
  }

  // Conservation: in every reachable state the delivery of broadcast b to client c is in exactly one place when the
  // snapshot of b holds c, and nowhere otherwise.
  lemma EveryDeliveryIsInOnePlace(s: State, c: Cid, b: nat)
    requires Reachable(s) && At(s, c)
    ensures s.clients[c].taken <= |s.clients[c].hist|
    ensures var consumed := CountLive(s.clients[c].hist[..s.clients[c].taken], b);
            var queued := CountLive(s.clients[c].hist[s.clients[c].taken..], b);
            consumed + queued + Refused(s, c, b) + AtSender(s, c, b) + AtWorkers(s, c, b) + ShardDropped(s, c, b)
                + GivenUp(s, c, b)
            == (if b < |s.log| && c in s.log[b].snapshot then 1 else 0)
  {
    ReachableBalance(s, c, b);
    var cl := s.clients[c];
    assert ClientOK(s, c, cl);
    LiveConcat(cl.hist[..cl.taken], cl.hist[cl.taken..]);
    assert cl.hist == cl.hist[..cl.taken] + cl.hist[cl.taken..];
    if b < |s.log| {
      assert BcastOK(s.log[b], |s.clients|);
      DistinctCount(s.log[b].snapshot, c);
    }
  }

  // No echo: a broadcast in a buffer came from another client of this room, whose snapshot held the receiver, and
  // it is there once.
  lemma NoEchoNoRepeat(s: State, c: Cid, b: nat)
    requires Reachable(s) && At(s, c) && b in LiveNumbers(s.clients[c].hist)
    ensures b < |s.log| && c in s.log[b].snapshot && At(s, s.log[b].sender) && s.log[b].sender != c
    ensures CountLive(s.clients[c].hist, b) == 1
  {
    EveryDeliveryIsInOnePlace(s, c, b);
    HistorySplits(s.clients[c].hist, s.clients[c].taken, b);
    EveryReachableStateIsWellFormed(s);
    assert BcastOK(s.log[b], |s.clients|);
  }

  lemma HistorySplits(hist: seq<Item>, taken: nat, b: nat)
    requires taken <= |hist| && b in LiveNumbers(hist)
    ensures CountLive(hist[..taken], b) + CountLive(hist[taken..], b) == CountLive(hist, b) >= 1
  {
    LiveConcat(hist[..taken], hist[taken..]);
    assert hist == hist[..taken] + hist[taken..];
  }

  /** No delivery is under way: loops are done and workers are idle. */
  ghost predicate Quiescent(s: State) {
    && (forall c: nat :: c < |s.clients| ==> Flight(s.clients[c].phase).1 == [])
    && (forall w: nat :: w < |s.workers| ==> s.workers[w].queue == [] && s.workers[w].hand.clients == [])
  }

  /** No full buffer and no panicking loop has cost a delivery. */
  ghost predicate NothingLost(s: State) {
    && (forall c: nat :: c < |s.clients| ==> LiveNumbers(s.clients[c].dropped) == [])
    && s.shardDrops == [] && s.lost == []
  }

  /** The plain delivery loop: broadcast b is appended to each target's buffer in turn. */
  function PlainLoop(buffers: seq<seq<nat>>, b: nat, targets: seq<Cid>): (r: seq<seq<nat>>)
    requires Below(targets, |buffers|)
    ensures |r| == |buffers|
    decreases |targets|
  {
    if targets == [] then buffers
    else PlainLoop(buffers[targets[0] := buffers[targets[0]] + [b]], b, targets[1..])
  }

  /** The buffers if every broadcast had run its plain loop to the end before the next one started. */
  function PlainRun(log: seq<Bcast>, clients: nat): (r: seq<seq<nat>>)
    requires forall b :: 0 <= b < |log| ==> Below(log[b].snapshot, clients)
    ensures |r| == clients
  {
    if log == [] then seq(clients, _ => [])
    else PlainLoop(PlainRun(log[..|log| - 1], clients), |log| - 1, log[|log| - 1].snapshot)
  }

  lemma {:induction false} PlainLoopCount(buffers: seq<seq<nat>>, b: nat, targets: seq<Cid>, c: Cid, x: nat)
    requires Below(targets, |buffers|) && c < |buffers|
    ensures multiset(PlainLoop(buffers, b, targets)[c])[x]
            == multiset(buffers[c])[x] + (if x == b then multiset(targets)[c] else 0)
    decreases |targets|
  {
    if targets != [] {
      PlainLoopCount(buffers[targets[0] := buffers[targets[0]] + [b]], b, targets[1..], c, x);
      CountSplit(targets, 1, c);
      assert targets[..1] == [targets[0]];
    }
  }

  lemma {:induction false} PlainRunCount(log: seq<Bcast>, clients: nat, c: Cid, b: nat)
    requires forall i :: 0 <= i < |log| ==> Below(log[i].snapshot, clients)
    requires c < clients
    ensures multiset(PlainRun(log, clients)[c])[b] == (if b < |log| then multiset(log[b].snapshot)[c] else 0)
    decreases |log|
  {
    if log != [] {
      var n := |log| - 1;
      PlainRunCount(log[..n], clients, c, b);
      PlainLoopCount(PlainRun(log[..n], clients), n, log[n].snapshot, c, b);
    }
  }

  lemma QuiescentCount(s: State, c: Cid, b: nat)
    requires Reachable(s) && Quiescent(s) && NothingLost(s) && At(s, c)
    ensures Accepted(s, c, b) == Offered(s, c, b)
  {
    ReachableBalance(s, c, b);
    IdleWorkersCount(s.workers, c, b);
    if b < |s.log| { assert BcastOK(s.log[b], |s.clients|); }
  }

  lemma SameMultiset(xs: seq<nat>, ys: seq<nat>)
    requires forall x: nat :: Times(xs, x) == Times(ys, x)
    ensures multiset(xs) == multiset(ys)
    ensures |ys| <= 1 ==> xs == ys
  {
    assert forall x: nat :: multiset(xs)[x] == Times(xs, x) && multiset(ys)[x] == Times(ys, x);
    assert forall x :: multiset(xs)[x] == multiset(ys)[x];
    assert |multiset(xs)| == |xs| && |multiset(ys)| == |ys|;
    if |ys| == 1 {
      assert xs[0] in multiset(xs);
    }
  }

  // Refinement: once every loop and worker has finished and no full buffer has cost a delivery, each client has been
  // given the same broadcasts as the plain loop gives it, pooled or not and however the goroutines interleaved; when
  // that is at most one broadcast the buffers are equal.
  lemma PoolRefinesPlainLoop(s: State, c: Cid)
    requires Reachable(s) && Quiescent(s) && NothingLost(s) && At(s, c)
    ensures forall b :: 0 <= b < |s.log| ==> Below(s.log[b].snapshot, |s.clients|)
    ensures multiset(LiveNumbers(s.clients[c].hist)) == multiset(PlainRun(s.log, |s.clients|)[c])
    ensures |PlainRun(s.log, |s.clients|)[c]| <= 1 ==> LiveNumbers(s.clients[c].hist) == PlainRun(s.log, |s.clients|)[c]
  {
    EveryReachableStateIsWellFormed(s);
    assert forall b :: 0 <= b < |s.log| ==> BcastOK(s.log[b], |s.clients|);
    var live, plain := LiveNumbers(s.clients[c].hist), PlainRun(s.log, |s.clients|)[c];
    forall b: nat ensures Times(live, b) == Times(plain, b) {
      QuiescentCount(s, c, b);
      PlainRunCount(s.log, |s.clients|, c, b);
    }
    SameMultiset(live, plain);
  }
}
