// What every step of the room protocol keeps: the shape of the state.
module RoomInvariants {
  import opened Sharding
  import opened RoomProtocol

  predicate InRoom(p: Phase) { !p.Fresh? && !p.Gone? }

  predicate ItemsOK(xs: seq<Item>, broadcasts: nat) {
    forall i :: 0 <= i < |xs| && xs[i].Live? ==> xs[i].b < broadcasts
  }

  /** The broadcast that a read loop is in the middle of is its own, and what is left of it names real clients. */
  predicate InFlightOK(log: seq<Bcast>, c: Cid, b: nat, rest: seq<Cid>, clients: nat) {
    && b < |log|
    && log[b].sender == c
    && Below(rest, clients)
    && NoDuplicates(rest)
    && c !in rest
  }

  predicate PhaseOK(s: State, c: Cid, p: Phase) {
    match p
    case Holding(body) => body.Chat? ==> body.row < |s.store|
    case Delivering(b, rest) => InFlightOK(s.log, c, b, rest, |s.clients|)
    case Submitting(b, rest, chunk, next) =>
      && InFlightOK(s.log, c, b, rest, |s.clients|)
      && s.hasPool && chunk > 0 && next <= |s.workers|
      && |rest| <= (|s.workers| - next) * chunk
    case _ => true
  }

  predicate ClientOK(s: State, c: Cid, cl: Client) {
    && cl.taken <= |cl.hist| <= cl.taken + SEND_BUFFER
    && ItemsOK(cl.hist, |s.log|)
    && ItemsOK(cl.dropped, |s.log|)
    && PhaseOK(s, c, cl.phase)
    && (c in s.members <==> InRoom(cl.phase))
    && cl.closes == (if cl.phase.Gone? then 1 else 0)
  }

  predicate JobOK(job: Job<nat, Cid>, broadcasts: nat, clients: nat) {
    && job.message < broadcasts
    && Below(job.clients, clients)
  }

  predicate JobsOK(jobs: seq<Job<nat, Cid>>, broadcasts: nat, clients: nat) {
    forall i :: 0 <= i < |jobs| ==> JobOK(jobs[i], broadcasts, clients)
  }

  predicate WorkerOK(wk: Worker, broadcasts: nat, clients: nat) {
    && |wk.queue| <= WORKER_BUFFER
    && JobsOK(wk.queue, broadcasts, clients)
    && (wk.hand.clients != [] ==> JobOK(wk.hand, broadcasts, clients))
    && (wk.exited ==> wk.queue == [] && wk.hand.clients == [] && wk.closed)
  }

  predicate BcastOK(e: Bcast, clients: nat) {
    && e.sender < clients
    && NoDuplicates(e.snapshot)
    && e.sender !in e.snapshot
    && Below(e.snapshot, clients)
  }

  ghost predicate Shape(s: State) {
    && (forall c: nat :: c < |s.clients| ==> ClientOK(s, c, s.clients[c]))
    && (forall w: nat :: w < |s.workers| ==> WorkerOK(s.workers[w], |s.log|, |s.clients|))
    && (forall b: nat :: b < |s.log| ==> BcastOK(s.log[b], |s.clients|))
    && JobsOK(s.shardDrops, |s.log|, |s.clients|)
    && JobsOK(s.lost, |s.log|, |s.clients|)
    && (forall c :: c in s.members ==> c < |s.clients|)
    && |s.workers| == (if s.hasPool then WORKER_COUNT else 0)
    && s.created == (if s.hasPool then 1 else 0)
    && !s.badIndex
  }

  lemma ShapeIsSane(s: State)
    requires Shape(s)
    ensures Sane(s)
  {
    forall c: nat | c < |s.clients| ensures ClientOK(s, c, s.clients[c]) {}
  }

  // What the snapshot loop over the members map guarantees about its result.
  lemma SnapshotFacts(s: State, c: Cid, order: seq<Cid>)
    requires Shape(s) && IsSnapshot(order, s.members, c)
    ensures forall d :: d in order <==> d in s.members && d != c
    ensures Below(order, |s.clients|) && c !in order
  {
    var drawn := set d | d in order;
    assert forall d :: d in order <==> d in drawn;
    assert forall i :: 0 <= i < |order| ==> order[i] in drawn;
  }

  lemma SnapshotShape(s: State, c: Cid, order: seq<Cid>)
    requires Shape(s) && Sane(s) && Enabled(s, Snapshot(c, order))
    ensures Shape(Apply(s, Snapshot(c, order)))
  {
    SnapshotFacts(s, c, order);
    var s' := Apply(s, Snapshot(c, order));
    if s.hasPool {
      ChunkSizeIsCeiling(|order|, |s.workers|);
    }
    forall d: nat | d < |s'.clients| ensures ClientOK(s', d, s'.clients[d]) {
      assert ClientOK(s, d, s.clients[d]);
    }
  }

  // The rest of a list after dropping a prefix is still duplicate-free and within bounds.
  lemma DropRest(log: seq<Bcast>, c: Cid, b: nat, rest: seq<Cid>, clients: nat, n: nat)
    requires InFlightOK(log, c, b, rest, clients) && n <= |rest|
    ensures InFlightOK(log, c, b, rest[n..], clients)
    ensures Below(rest[..n], clients)
  {}

  // Appending an item of a started broadcast, or dropping it at a full buffer, keeps a client well-formed.
  lemma AcceptKeepsClient(s: State, d: Cid, cl: Client, x: Item)
    requires ClientOK(s, d, cl) && (x.Live? ==> x.b < |s.log|)
    ensures ClientOK(s, d, Accept(cl, x))
  {}

  /** Only client c, and the record of lost work, may differ; c's new state is well-formed. */
  ghost predicate OneClientMoved(s: State, s': State, c: Cid) {
    && At(s, c) && |s'.clients| == |s.clients| && s'.clients == s.clients[c := s'.clients[c]]
    && s'.log == s.log && s'.workers == s.workers && s'.hasPool == s.hasPool && s'.created == s.created
    && s'.members == s.members && |s.store| <= |s'.store| && s'.badIndex == s.badIndex
    && JobsOK(s'.lost, |s'.log|, |s'.clients|) && JobsOK(s'.shardDrops, |s'.log|, |s'.clients|)
    && ClientOK(s', c, s'.clients[c])
  }

  lemma OneClientMovedShape(s: State, s': State, c: Cid)
    requires Shape(s) && OneClientMoved(s, s', c)
    ensures Shape(s')
  {
    forall d: nat | d < |s'.clients| ensures ClientOK(s', d, s'.clients[d]) {
      if d != c { assert ClientOK(s, d, s.clients[d]); }
    }
  }

  lemma DeliverShape(s: State, c: Cid)
    requires Shape(s) && Sane(s) && Enabled(s, Deliver(c))
    ensures Shape(Apply(s, Deliver(c)))
  {
    var p := s.clients[c].phase;
    assert ClientOK(s, c, s.clients[c]);
    DropRest(s.log, c, p.b, p.rest, |s.clients|, 1);
    var s' := Apply(s, Deliver(c));
    var r := p.rest[0];
    assert r != c && r < |s.clients|;
    if s.clients[r].phase.Gone? {
      OneClientMovedShape(s, s', c);
    } else {
      AcceptKeepsClient(s, r, s.clients[r], Live(p.b, Direct));
      var mid := s.(clients := s.clients[r := Accept(s.clients[r], Live(p.b, Direct))]);
      OneClientMovedShape(s, mid, r);
      assert s' == mid.(clients := mid.clients[c := mid.clients[c].(phase := Delivering(p.b, p.rest[1..]))]);
      OneClientMovedShape(mid, s', c);
    }
  }

  // After one turn of the submit loop the clients left still fit the workers left.
  lemma ShardRoom(rest: nat, workers: nat, next: nat, chunk: nat)
    requires 0 < rest <= (workers - next) * chunk && chunk > 0 && next <= workers
    ensures next < workers
    ensures rest - Min(chunk, rest) <= (workers - (next + 1)) * chunk
  {
    var left := workers - next;
    assert left == 0 ==> left * chunk == 0;
    assert (left - 1) * chunk == left * chunk - chunk;
    assert workers - (next + 1) == left - 1;
  }

  // Pushing a well-formed job on a worker queue that has room keeps the shape.
  lemma PushShape(s: State, w: nat, job: Job<nat, Cid>)
    requires Shape(s) && w < |s.workers| && |s.workers[w].queue| < WORKER_BUFFER && !s.workers[w].closed
    requires JobOK(job, |s.log|, |s.clients|)
    ensures Shape(s.(workers := s.workers[w := s.workers[w].(queue := s.workers[w].queue + [job])]))
  {
    var s' := s.(workers := s.workers[w := s.workers[w].(queue := s.workers[w].queue + [job])]);
    assert WorkerOK(s.workers[w], |s.log|, |s.clients|);
    forall d: nat | d < |s'.clients| ensures ClientOK(s', d, s'.clients[d]) {
      assert ClientOK(s, d, s.clients[d]);
    }
  }

  lemma EnqueueShape(s: State, c: Cid)
    requires Shape(s) && Sane(s) && Enabled(s, Enqueue(c))
    ensures Shape(Apply(s, Enqueue(c)))
  {
    var p := s.clients[c].phase;
    assert ClientOK(s, c, s.clients[c]);
    ShardRoom(|p.rest|, |s.workers|, p.next, p.chunk);
    var wk := s.workers[p.next];
    if !wk.closed && |wk.queue| < WORKER_BUFFER { PushedShape(s, c); } else { UnpushedShape(s, c); }
  }

  lemma PushedShape(s: State, c: Cid)
    requires Shape(s) && Sane(s) && Enabled(s, Enqueue(c))
    requires var k := s.clients[c].phase.next;
             k < |s.workers| && !s.workers[k].closed && |s.workers[k].queue| < WORKER_BUFFER
    ensures Shape(Apply(s, Enqueue(c)))
  {
    var p := s.clients[c].phase;
    assert ClientOK(s, c, s.clients[c]);
    ShardRoom(|p.rest|, |s.workers|, p.next, p.chunk);
    var n := Min(p.chunk, |p.rest|);
    DropRest(s.log, c, p.b, p.rest, |s.clients|, n);
    var mid := Goto(s, c, Submitting(p.b, p.rest[n..], p.chunk, p.next + 1));
    OneClientMovedShape(s, mid, c);
    PushShape(mid, p.next, Job(p.b, p.rest[..n]));
  }

  lemma UnpushedShape(s: State, c: Cid)
    requires Shape(s) && Sane(s) && Enabled(s, Enqueue(c))
    requires var k := s.clients[c].phase.next;
             k < |s.workers| && (s.workers[k].closed || |s.workers[k].queue| >= WORKER_BUFFER)
    ensures Shape(Apply(s, Enqueue(c)))
  {
    var p := s.clients[c].phase;
    assert ClientOK(s, c, s.clients[c]);
    ShardRoom(|p.rest|, |s.workers|, p.next, p.chunk);
    DropRest(s.log, c, p.b, p.rest, |s.clients|, Min(p.chunk, |p.rest|));
    OneClientMovedShape(s, Apply(s, Enqueue(c)), c);
  }

  lemma GrowShape(s: State, a: Step)
    requires Shape(s) && Sane(s) && Enabled(s, a) && (a.Connect? || a.AddLock? || a.Activate? || a.PersistElsewhere?)
    ensures Shape(Apply(s, a))
  {
    var s' := Apply(s, a);
    forall d: nat | d < |s'.clients| ensures ClientOK(s', d, s'.clients[d]) {
      assert d < |s.clients| ==> ClientOK(s, d, s.clients[d]);
    }
  }

  lemma ReplayShape(s: State, a: Step)
    requires Shape(s) && Sane(s) && Enabled(s, a) && (a.AddCheck? || a.Query? || a.Replay? || a.Start?)
    ensures Shape(Apply(s, a))
  {
    assert ClientOK(s, a.c, s.clients[a.c]);
    OneClientMovedShape(s, Apply(s, a), a.c);
  }

  lemma FrameShape(s: State, a: Step)
    requires Shape(s) && Sane(s) && Enabled(s, a) && (a.SelfError? || a.TypingFrame? || a.Persist?)
    ensures Shape(Apply(s, a))
  {
    assert ClientOK(s, a.c, s.clients[a.c]);
    FrameMovesOne(s, a);
    OneClientMovedShape(s, Apply(s, a), a.c);
  }

  lemma FrameMovesOne(s: State, a: Step)
    requires Shape(s) && Sane(s) && Enabled(s, a) && (a.SelfError? || a.TypingFrame? || a.Persist?)
    ensures OneClientMoved(s, Apply(s, a), a.c) && ClientOK(Apply(s, a), a.c, Apply(s, a).clients[a.c])
  {
    assert ClientOK(s, a.c, s.clients[a.c]);
  }

  lemma LeaveShape(s: State, a: Step)
    requires Shape(s) && Sane(s) && Enabled(s, a) && (a.Skip? || a.Finish? || a.Consume?)
    ensures Shape(Apply(s, a))
  {
    assert ClientOK(s, a.c, s.clients[a.c]);
    OneClientMovedShape(s, Apply(s, a), a.c);
  }

  lemma RemoveShape(s: State, a: Step)
    requires Shape(s) && Sane(s) && Enabled(s, a) && (a.Remove?)
    ensures Shape(Apply(s, a))
  {
    var s' := Apply(s, a);
    forall d: nat | d < |s'.clients| ensures ClientOK(s', d, s'.clients[d]) {
      assert d < |s.clients| ==> ClientOK(s, d, s.clients[d]);
    }
  }

  lemma WorkerShape(s: State, a: Step)
    requires Shape(s) && Sane(s) && Enabled(s, a) && (a.Take? || a.Exit?)
    ensures Shape(Apply(s, a))
  {
    var s' := Apply(s, a);
    forall d: nat | d < |s'.clients| ensures ClientOK(s', d, s'.clients[d]) {
      assert d < |s.clients| ==> ClientOK(s, d, s.clients[d]);
    }
  }

  lemma ShutShape(s: State, a: Step)
    requires Shape(s) && Sane(s) && Enabled(s, a) && (a.ShutStart? || a.ShutClose? || a.ShutReturn?)
    ensures Shape(Apply(s, a))
  {
    var s' := Apply(s, a);
    forall d: nat | d < |s'.clients| ensures ClientOK(s', d, s'.clients[d]) {
      assert d < |s.clients| ==> ClientOK(s, d, s.clients[d]);
    }
  }

  lemma SendShape(s: State, a: Step)
    requires Shape(s) && Sane(s) && Enabled(s, a) && (a.Send?)
    ensures Shape(Apply(s, a))
  {
    var s' := Apply(s, a);
    forall d: nat | d < |s'.clients| ensures ClientOK(s', d, s'.clients[d]) {
      assert d < |s.clients| ==> ClientOK(s, d, s.clients[d]);
    }
  }

  lemma StepKeepsShape(s: State, a: Step)
    requires Shape(s) && Enabled(s, a)
    ensures Sane(s) && Shape(Apply(s, a))
  {
    ShapeIsSane(s);
    match a
    case Connect(_) | AddLock(_) | Activate(_) | PersistElsewhere => GrowShape(s, a);
    case AddCheck(_) | Query(_, _) | Replay(_, _) | Start(_) => ReplayShape(s, a);
    case SelfError(_) | TypingFrame(_) | Persist(_, _) => FrameShape(s, a);
    case Skip(_) | Finish(_) | Consume(_) => LeaveShape(s, a);
    case Remove(_) => RemoveShape(s, a);
    case Snapshot(c, order) => SnapshotShape(s, c, order);
    case Deliver(c) => DeliverShape(s, c);
    case Enqueue(c) => EnqueueShape(s, c);
    case Take(_) | Exit(_) => WorkerShape(s, a);
    case Send(_) => SendShape(s, a);
    case ShutStart | ShutClose | ShutReturn => ShutShape(s, a);
  }

  lemma {:induction false} RunKeepsShape(s: State, steps: seq<Step>)
    requires Shape(s) && Legal(s, steps)
    ensures Shape(Exec(s, steps))
    decreases |steps|
  {
    if steps != [] {
      StepKeepsShape(s, steps[0]);
      RunKeepsShape(Apply(s, steps[0]), steps[1..]);
    }
  }

  // Buffers never exceed their capacity, worker indices never leave the pool, at most one pool is made, and a
  // send channel is closed exactly when its client is removed, once. Being legal adds nothing to being enabled.
  lemma EveryReachableStateIsWellFormed(s: State)
    requires Reachable(s)
    ensures Shape(s) && Sane(s)
    ensures forall c: nat :: c < |s.clients| ==> |s.clients[c].hist| - s.clients[c].taken <= SEND_BUFFER
    ensures forall w: nat :: w < |s.workers| ==> |s.workers[w].queue| <= WORKER_BUFFER
    ensures !s.badIndex && s.created <= 1
    ensures forall c: nat :: c < |s.clients| ==> s.clients[c].closes == (if s.clients[c].phase.Gone? then 1 else 0)
  {
    var steps :| Legal(Init(s.limit), steps) && Exec(Init(s.limit), steps) == s;
    RunKeepsShape(Init(s.limit), steps);
    ShapeIsSane(s);
    forall c: nat | c < |s.clients|
      ensures |s.clients[c].hist| - s.clients[c].taken <= SEND_BUFFER
      ensures s.clients[c].closes == (if s.clients[c].phase.Gone? then 1 else 0)
    {
      assert ClientOK(s, c, s.clients[c]);
    }
    forall w: nat | w < |s.workers| ensures |s.workers[w].queue| <= WORKER_BUFFER {
      assert WorkerOK(s.workers[w], |s.log|, |s.clients|);
    }
  }

  lemma {:induction false} ExecAppend(s: State, steps: seq<Step>, more: seq<Step>)
    requires Legal(s, steps) && Legal(Exec(s, steps), more)
    ensures Legal(s, steps + more) && Exec(s, steps + more) == Exec(Exec(s, steps), more)
    decreases |steps|
  {
    if steps == [] {
      assert steps + more == more;
    } else {
      assert (steps + more)[1..] == steps[1..] + more;
      ExecAppend(Apply(s, steps[0]), steps[1..], more);
    }
  }

  lemma {:induction false} LimitIsConstant(s: State, steps: seq<Step>)
    requires Legal(s, steps)
    ensures Exec(s, steps).limit == s.limit
    decreases |steps|
  {
    if steps != [] {
      LimitIsConstant(Apply(s, steps[0]), steps[1..]);
    }
  }

  // Reachable states are closed under every enabled step.
  lemma StepStaysReachable(s: State, a: Step)
    requires Reachable(s) && Enabled(s, a)
    ensures Sane(s) && Reachable(Apply(s, a))
  {
    EveryReachableStateIsWellFormed(s);
    StepKeepsShape(s, a);
    var steps :| Legal(Init(s.limit), steps) && Exec(Init(s.limit), steps) == s;
    var s' := Apply(s, a);
    ShapeIsSane(s');
    assert Legal(s', []);
    assert [a][1..] == [];
    assert Legal(s, [a]) && Exec(s, [a]) == s';
    ExecAppend(Init(s.limit), steps, [a]);
    assert Exec(Init(s.limit), steps + [a]) == s';
    assert s'.limit == s.limit;
  }
}
