// How the lane on which a client receives a broadcast depends on the broadcast: direct before the room had a pool, and
// afterwards the worker whose number is the client's shard number in the snapshot.
module Lanes {
  import opened Sharding
  import opened RoomProtocol
  import opened RoomInvariants
  import opened QuietSteps

  // ---- direct broadcasts come before pooled ones ----

  predicate HistSplit(xs: seq<Item>, T: nat) {
    forall p :: 0 <= p < |xs| && xs[p].Live? ==> (xs[p].lane.Direct? <==> xs[p].b < T)
  }

  predicate LoopSplit(p: Phase, T: nat) {
    ((p.Delivering? && p.rest != []) ==> p.b < T) && ((p.Submitting? && p.rest != []) ==> p.b >= T)
  }

  predicate WorkerSplit(wk: Worker, T: nat) {
    && (wk.hand.clients != [] ==> wk.hand.message >= T)
    && forall q :: 0 <= q < |wk.queue| ==> wk.queue[q].message >= T
  }

  /** The broadcasts below T go directly, and those from T on go through workers. */
  ghost predicate Split(s: State, T: nat) {
    && T <= |s.log| && (!s.hasPool ==> T == |s.log|)
    && (forall c: nat :: c < |s.clients| ==> HistSplit(s.clients[c].hist, T) && LoopSplit(s.clients[c].phase, T))
    && (forall w: nat :: w < |s.workers| ==> WorkerSplit(s.workers[w], T))
  }

  lemma KeptSplit(xs: seq<Item>, ys: seq<Item>, T: nat)
    requires HistKept(xs, ys) && HistSplit(xs, T)
    ensures HistSplit(ys, T)
  {
    assert forall p :: 0 <= p < |ys| && ys[p].Live? ==> p < |xs| && ys[p] == xs[p];
  }

  lemma StandsSplit(s: State, s': State, T: nat)
    requires Split(s, T) && Stands(s, s')
    ensures Split(s', T)
  {
    forall c: nat | c < |s'.clients| ensures HistSplit(s'.clients[c].hist, T) {
      if c < |s.clients| { KeptSplit(s.clients[c].hist, s'.clients[c].hist, T); }
    }
  }

  lemma LongerLogSplit(xs: seq<Item>, broadcasts: nat)
    requires ItemsOK(xs, broadcasts) && HistSplit(xs, broadcasts)
    ensures HistSplit(xs, broadcasts + 1)
  {}

  lemma SnapshotSplit(s: State, c0: Cid, order: seq<Cid>, T: nat)
    requires Shape(s) && Sane(s) && Split(s, T) && Enabled(s, Snapshot(c0, order))
    ensures Split(Apply(s, Snapshot(c0, order)), if s.hasPool then T else T + 1)
  {
    forall c: nat | c < |s.clients|
      ensures !s.hasPool ==> HistSplit(s.clients[c].hist, T + 1) && !s.clients[c].phase.Submitting?
    {
      assert ClientOK(s, c, s.clients[c]);
      if !s.hasPool { LongerLogSplit(s.clients[c].hist, |s.log|); }
    }
  }

  lemma DeliverSplit(s: State, c0: Cid, T: nat)
    requires Sane(s) && Split(s, T) && Enabled(s, Deliver(c0))
    ensures Split(Apply(s, Deliver(c0)), T)
  {
    var p := s.clients[c0].phase;
    AcceptSplit(s.clients[p.rest[0]], Live(p.b, Direct), T);
  }

  lemma AcceptSplit(cl: Client, x: Item, T: nat)
    requires cl.taken <= |cl.hist| && x.Live? && HistSplit(cl.hist, T) && (x.lane.Direct? <==> x.b < T)
    ensures HistSplit(Accept(cl, x).hist, T)
  {}

  lemma EnqueueSplit(s: State, c0: Cid, T: nat)
    requires Sane(s) && Split(s, T) && Enabled(s, Enqueue(c0))
    ensures Split(Apply(s, Enqueue(c0)), T)
  {}

  lemma TakeSplit(s: State, w: nat, T: nat)
    requires Sane(s) && Split(s, T) && Enabled(s, Take(w))
    ensures Split(Apply(s, Take(w)), T)
  {
    assert WorkerSplit(s.workers[w], T);
  }

  lemma SendSplit(s: State, w: nat, T: nat)
    requires Sane(s) && Split(s, T) && Enabled(s, Send(w))
    ensures Split(Apply(s, Send(w)), T)
  {
    var hand := s.workers[w].hand;
    assert WorkerSplit(s.workers[w], T);
    AcceptSplit(s.clients[hand.clients[0]], Live(hand.message, Via(w)), T);
  }

  lemma StepSplit(s: State, a: Step, T: nat)
    requires Shape(s) && Sane(s) && Split(s, T) && Enabled(s, a)
    ensures Split(Apply(s, a), if a.Snapshot? && !s.hasPool then T + 1 else T)
  {
    if MovesDelivery(a) { MoveSplit(s, a, T); } else { QuietSplit(s, a, T); }
  }

  lemma QuietSplit(s: State, a: Step, T: nat)
    requires Shape(s) && Sane(s) && Split(s, T) && Enabled(s, a) && !MovesDelivery(a)
    ensures Split(Apply(s, a), T)
  {
    QuietStands(s, a);
    StandsSplit(s, Apply(s, a), T);
  }

  lemma MoveSplit(s: State, a: Step, T: nat)
    requires Shape(s) && Sane(s) && Split(s, T) && Enabled(s, a) && MovesDelivery(a)
    ensures Split(Apply(s, a), if a.Snapshot? && !s.hasPool then T + 1 else T)
  {
    match a
    case Snapshot(c, order) => SnapshotSplit(s, c, order, T);
    case Deliver(c) => DeliverSplit(s, c, T);
    case Enqueue(c) => EnqueueSplit(s, c, T);
    case Take(w) => TakeSplit(s, w, T);
    case Send(w) => SendSplit(s, w, T);
  }

  lemma {:induction false} RunSplit(s: State, steps: seq<Step>, T: nat) returns (T': nat)
    requires Shape(s) && Split(s, T) && Legal(s, steps)
    ensures Split(Exec(s, steps), T')
    decreases |steps|
  {
    if steps == [] {
      T' := T;
    } else {
      StepKeepsShape(s, steps[0]);
      StepSplit(s, steps[0], T);
      T' := RunSplit(Apply(s, steps[0]), steps[1..], if steps[0].Snapshot? && !s.hasPool then T + 1 else T);
    }
  }

  // In every reachable state some number divides the broadcasts that go directly from those that go through workers.
  lemma DirectBeforePooled(s: State) returns (T: nat)
    requires Reachable(s)
    ensures Split(s, T)
  {
    var steps :| Legal(Init(s.limit), steps) && Exec(Init(s.limit), steps) == s;
    T := RunSplit(Init(s.limit), steps, 0);
  }

  // ---- the worker is the client's shard number ----

  function Shards(e: Bcast): seq<seq<Cid>> { Chunks(e.snapshot, ChunkSize(|e.snapshot|, WORKER_COUNT)) }

  predicate InShard(e: Bcast, w: nat, d: Cid) { w < |Shards(e)| && d in Shards(e)[w] }

  predicate JobRouted(log: seq<Bcast>, w: nat, job: Job<nat, Cid>) {
    job.message < |log| && forall d <- job.clients :: InShard(log[job.message], w, d)
  }

  predicate WorkerRouted(log: seq<Bcast>, w: nat, wk: Worker) {
    (wk.hand.clients != [] ==> JobRouted(log, w, wk.hand))
        && forall q :: 0 <= q < |wk.queue| ==> JobRouted(log, w, wk.queue[q])
  }

  predicate HistRouted(log: seq<Bcast>, c: Cid, xs: seq<Item>) {
    forall p :: 0 <= p < |xs| && xs[p].Live? && xs[p].lane.Via? ==>
        xs[p].b < |log| && InShard(log[xs[p].b], xs[p].lane.worker, c)
  }

  /** What a submit loop has left are the shards from the next worker's on. */
  predicate LoopRouted(log: seq<Bcast>, p: Phase) {
    p.Submitting? && p.rest != [] ==>
      && p.b < |log| && p.chunk > 0 && p.chunk == ChunkSize(|log[p.b].snapshot|, WORKER_COUNT)
      && p.next <= |Shards(log[p.b])| && Shards(log[p.b])[p.next..] == Chunks(p.rest, p.chunk)
  }

  ghost predicate Routed(s: State) {
    && (forall c: nat :: c < |s.clients| ==>
         HistRouted(s.log, c, s.clients[c].hist) && LoopRouted(s.log, s.clients[c].phase))
    && (forall w: nat :: w < |s.workers| ==> WorkerRouted(s.log, w, s.workers[w]))
  }

  lemma StandsRouted(s: State, s': State)
    requires Routed(s) && Stands(s, s')
    ensures Routed(s')
  {
    forall c: nat | c < |s'.clients| ensures HistRouted(s'.log, c, s'.clients[c].hist) {
      if c < |s.clients| { KeptRouted(s.log, c, s.clients[c].hist, s'.clients[c].hist); }
    }
    forall w: nat | w < |s'.workers| ensures WorkerRouted(s'.log, w, s'.workers[w]) {
      assert w < |s.workers| ==> WorkerRouted(s.log, w, s.workers[w]);
    }
  }

  lemma KeptRouted(log: seq<Bcast>, c: Cid, xs: seq<Item>, ys: seq<Item>)
    requires HistKept(xs, ys) && HistRouted(log, c, xs)
    ensures HistRouted(log, c, ys)
  {
    assert forall p :: 0 <= p < |ys| && ys[p].Live? ==> p < |xs| && ys[p] == xs[p];
  }

  lemma LongerLogRouted(log: seq<Bcast>, e: Bcast)
    ensures forall w: nat, wk: Worker :: WorkerRouted(log, w, wk) ==> WorkerRouted(log + [e], w, wk)
    ensures forall c: Cid, xs: seq<Item> :: HistRouted(log, c, xs) ==> HistRouted(log + [e], c, xs)
    ensures forall p: Phase :: LoopRouted(log, p) ==> LoopRouted(log + [e], p)
  {
    assert forall b: nat :: b < |log| ==> (log + [e])[b] == log[b];
  }

  lemma SnapshotRouted(s: State, c0: Cid, order: seq<Cid>)
    requires Shape(s) && Sane(s) && Routed(s) && Enabled(s, Snapshot(c0, order))
    ensures Routed(Apply(s, Snapshot(c0, order)))
  {
    var e := Bcast(c0, s.clients[c0].phase.body, order);
    LongerLogRouted(s.log, e);
    assert Shards(e)[0..] == Shards(e);
  }

  lemma DeliverRouted(s: State, c0: Cid)
    requires Sane(s) && Routed(s) && Enabled(s, Deliver(c0))
    ensures Routed(Apply(s, Deliver(c0)))
  {
    var s' := Apply(s, Deliver(c0));
    forall w: nat | w < |s'.workers|
      ensures WorkerRouted(s'.log, w, s'.workers[w])
    {
      assert WorkerRouted(s.log, w, s.workers[w]);
    }
  }

  // The shard that a submit loop cuts next is the next worker's, and the rest are those after it.
  lemma NextShardRouted(log: seq<Bcast>, p: Phase)
    requires p.Submitting? && p.rest != [] && LoopRouted(log, p)
    ensures JobRouted(log, p.next, Job(p.b, p.rest[..Min(p.chunk, |p.rest|)]))
    ensures LoopRouted(log, Submitting(p.b, p.rest[Min(p.chunk, |p.rest|)..], p.chunk, p.next + 1))
  {
    var all := Shards(log[p.b]);
    var n := Min(p.chunk, |p.rest|);
    var here := Chunks(p.rest, p.chunk);
    assert here == [p.rest[..n]] + Chunks(p.rest[n..], p.chunk);
    assert all[p.next..][0] == p.rest[..n] && p.next < |all| && all[p.next] == p.rest[..n];
    assert all[p.next + 1..] == all[p.next..][1..] == Chunks(p.rest[n..], p.chunk);
  }

  lemma EnqueueRouted(s: State, c0: Cid)
    requires Sane(s) && Routed(s) && Enabled(s, Enqueue(c0))
    ensures Routed(Apply(s, Enqueue(c0)))
  {
    assert LoopRouted(s.log, s.clients[c0].phase);
    NextShardRouted(s.log, s.clients[c0].phase);
    EnqueueRoutes(s, c0);
    EnqueueLeavesOthers(s, c0);
  }

  // The shard goes to the worker it is meant for.
  lemma EnqueueRoutes(s: State, c0: Cid)
    requires Sane(s) && Routed(s) && Enabled(s, Enqueue(c0))
    ensures var s' := Apply(s, Enqueue(c0));
            s'.log == s.log && forall w: nat :: w < |s'.workers| ==> WorkerRouted(s.log, w, s'.workers[w])
  {
    var s', p := Apply(s, Enqueue(c0)), s.clients[c0].phase;
    assert LoopRouted(s.log, p);
    NextShardRouted(s.log, p);
    forall w: nat | w < |s'.workers| ensures WorkerRouted(s.log, w, s'.workers[w]) {
      PushRouted(s.log, w, s.workers[w], Job(p.b, p.rest[..Min(p.chunk, |p.rest|)]));
    }
  }

  lemma PushRouted(log: seq<Bcast>, w: nat, wk: Worker, job: Job<nat, Cid>)
    requires WorkerRouted(log, w, wk)
    ensures JobRouted(log, w, job) ==> WorkerRouted(log, w, wk.(queue := wk.queue + [job]))
  {}

  // A turn of the submit loop changes no buffer, and no loop but its own.
  lemma EnqueueLeavesOthers(s: State, c0: Cid)
    requires Sane(s) && Enabled(s, Enqueue(c0))
    ensures var s', p := Apply(s, Enqueue(c0)), s.clients[c0].phase;
            && s'.log == s.log && |s'.clients| == |s.clients|
            && (s'.clients[c0].phase == Submitting(p.b, p.rest[Min(p.chunk, |p.rest|)..], p.chunk, p.next + 1)
                || s'.clients[c0].phase == Leaving)
            && forall c: nat :: c < |s.clients| ==>
                 s'.clients[c].hist == s.clients[c].hist && (c != c0 ==> s'.clients[c].phase == s.clients[c].phase)
  {}

  lemma TakeRouted(s: State, w: nat)
    requires Sane(s) && Routed(s) && Enabled(s, Take(w))
    ensures Routed(Apply(s, Take(w)))
  {
    var s' := Apply(s, Take(w));
    forall v: nat | v < |s'.workers|
      ensures WorkerRouted(s'.log, v, s'.workers[v])
    {
      assert WorkerRouted(s.log, v, s.workers[v]);
    }
  }

  lemma SendRouted(s: State, w: nat)
    requires Sane(s) && Routed(s) && Enabled(s, Send(w))
    ensures Routed(Apply(s, Send(w)))
  {
    var s', hand := Apply(s, Send(w)), s.workers[w].hand;
    assert WorkerRouted(s.log, w, s.workers[w]) && InShard(s.log[hand.message], w, hand.clients[0]);
    forall v: nat | v < |s'.workers|
      ensures WorkerRouted(s'.log, v, s'.workers[v])
    {
      assert WorkerRouted(s.log, v, s.workers[v]);
    }
  }

  lemma StepRouted(s: State, a: Step)
    requires Shape(s) && Sane(s) && Routed(s) && Enabled(s, a)
    ensures Routed(Apply(s, a))
  {
    if MovesDelivery(a) { MoveRouted(s, a); } else { QuietRouted(s, a); }
  }

  lemma QuietRouted(s: State, a: Step)
    requires Shape(s) && Sane(s) && Routed(s) && Enabled(s, a) && !MovesDelivery(a)
    ensures Routed(Apply(s, a))
  {
    QuietStands(s, a);
    StandsRouted(s, Apply(s, a));
  }

  lemma MoveRouted(s: State, a: Step)
    requires Shape(s) && Sane(s) && Routed(s) && Enabled(s, a) && MovesDelivery(a)
    ensures Routed(Apply(s, a))
  {
    match a
    case Snapshot(c, order) => SnapshotRouted(s, c, order);
    case Deliver(c) => DeliverRouted(s, c);
    case Enqueue(c) => EnqueueRouted(s, c);
    case Take(w) => TakeRouted(s, w);
    case Send(w) => SendRouted(s, w);
  }

  lemma {:induction false} RunRouted(s: State, steps: seq<Step>)
    requires Shape(s) && Routed(s) && Legal(s, steps)
    ensures Routed(Exec(s, steps))
    decreases |steps|
  {
    if steps != [] {
      StepKeepsShape(s, steps[0]);
      StepRouted(s, steps[0]);
      RunRouted(Apply(s, steps[0]), steps[1..]);
    }
  }

  lemma ReachableRouted(s: State)
    requires Reachable(s)
    ensures Routed(s)
  {
    var steps :| Legal(Init(s.limit), steps) && Exec(Init(s.limit), steps) == s;
    RunRouted(Init(s.limit), steps);
  }

  function IndexOf(xs: seq<Cid>, c: Cid): (k: nat)
    requires c in xs
    ensures k < |xs| && xs[k] == c
  {
    if xs[0] == c then 0 else 1 + IndexOf(xs[1..], c)
  }

  /** Which shard of a client list holds c: its place in the list over the shard size. */
  function ShardNumber(order: seq<Cid>, c: Cid): nat
    requires c in order
  {
    IndexOf(order, c) / ChunkSize(|order|, WORKER_COUNT)
  }

  lemma QuotientOf(i: nat, k: nat, n: nat)
    requires n > 0 && k * n <= i < k * n + n
    ensures i / n == k
  {
    var q := i / n;
    assert i == q * n + i % n && (q + 1) * n == q * n + n && (k + 1) * n == k * n + n;
    if q < k { MulOrder(q + 1, k, n); }
    if q > k { MulOrder(k + 1, q, n); }
  }

  lemma ShardHasItsNumber(e: Bcast, w: nat, c: Cid)
    requires NoDuplicates(e.snapshot) && InShard(e, w, c)
    ensures c in e.snapshot && ShardNumber(e.snapshot, c) == w
  {
    var n := ChunkSize(|e.snapshot|, WORKER_COUNT);
    ChunkAt(e.snapshot, n, w);
    var part := Shards(e)[w];
    var j :| 0 <= j < |part| && part[j] == c;
    assert e.snapshot[w * n + j] == c;
    assert IndexOf(e.snapshot, c) == w * n + j;
    QuotientOf(w * n + j, w, n);
  }

  // Whatever interleaves, a broadcast that a client received through a worker came through the worker that the sender's
  // snapshot assigns to it.
  lemma WorkerIsShardNumber(s: State, c: Cid, p: nat)
    requires Reachable(s) && At(s, c) && p < |s.clients[c].hist| && s.clients[c].hist[p].Live?
             && s.clients[c].hist[p].lane.Via?
    ensures var x := s.clients[c].hist[p];
            x.b < |s.log| && c in s.log[x.b].snapshot && x.lane.worker == ShardNumber(s.log[x.b].snapshot, c)
  {
    ReachableRouted(s);
    EveryReachableStateIsWellFormed(s);
    var x := s.clients[c].hist[p];
    assert HistRouted(s.log, c, s.clients[c].hist) && BcastOK(s.log[x.b], |s.clients|);
    ShardHasItsNumber(s.log[x.b], x.lane.worker, c);
  }
}
