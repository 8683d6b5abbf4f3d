// Shutting the pool down closes the worker channels, lets the workers drain, and waits for all of them.
module PoolShutdown {
  import opened Sharding
  import opened RoomProtocol
  import opened RoomInvariants
  import opened Accounting

  function QueueWork(jobs: seq<Job<nat, Cid>>): nat {
    if jobs == [] then 0 else |jobs[0].clients| + 1 + QueueWork(jobs[1..])
  }

  /** Sends, takes and exits that a worker has still to do. */
  function WorkerWork(wk: Worker): nat {
    |wk.hand.clients| + QueueWork(wk.queue) + (if wk.exited then 0 else 1)
  }

  function Work(ws: seq<Worker>): nat {
    if ws == [] then 0 else WorkerWork(ws[0]) + Work(ws[1..])
  }

  lemma {:induction false} WorkUpdate(ws: seq<Worker>, w: nat, wk: Worker)
    requires w < |ws|
    ensures Work(ws[w := wk]) + WorkerWork(ws[w]) == Work(ws) + WorkerWork(wk)
    decreases |ws|
  {
    if w == 0 {
      assert ws[w := wk][1..] == ws[1..];
    } else {
      assert ws[w := wk][1..] == ws[1..][w - 1 := wk];
      WorkUpdate(ws[1..], w - 1, wk);
    }
  }

  predicate WorkerStep(a: Step) { a.Take? || a.Send? || a.Exit? }

  predicate AllClosed(ws: seq<Worker>) { forall w :: 0 <= w < |ws| ==> ws[w].closed }

  // Every step of a worker that does not end the process does one unit of its work.
  lemma WorkerStepsUseWork(s: State, a: Step)
    requires Sane(s) && Enabled(s, a) && WorkerStep(a) && !Apply(s, a).crashed
    ensures Work(Apply(s, a).workers) + 1 == Work(s.workers)
  {
    WorkUpdate(s.workers, a.w, Apply(s, a).workers[a.w]);
  }

  // Once every worker channel is closed, no step of any goroutine adds work or reopens a channel.
  lemma ClosedPoolGetsNoWork(s: State, a: Step)
    requires Shape(s) && Sane(s) && Enabled(s, a) && s.hasPool && AllClosed(s.workers)
    ensures Work(Apply(s, a).workers) <= Work(s.workers) && AllClosed(Apply(s, a).workers)
    ensures !WorkerStep(a) ==> Work(Apply(s, a).workers) == Work(s.workers)
  {
    if WorkerStep(a) { ClosedWorkerWorks(s, a); }
    else if a.ShutClose? { CloseAddsNoWork(s); }
    else if a.Enqueue? { NothingIsSubmitted(s, a.c); }
    else { WorkersStay(s, a); }
  }

  lemma ClosedWorkerWorks(s: State, a: Step)
    requires Shape(s) && Sane(s) && Enabled(s, a) && WorkerStep(a) && AllClosed(s.workers)
    ensures Work(Apply(s, a).workers) <= Work(s.workers) && AllClosed(Apply(s, a).workers)
  {
    WorkUpdate(s.workers, a.w, Apply(s, a).workers[a.w]);
  }

  lemma CloseAddsNoWork(s: State)
    requires Shape(s) && Sane(s) && Enabled(s, ShutClose) && AllClosed(s.workers)
    ensures Work(Apply(s, ShutClose).workers) == Work(s.workers) && AllClosed(Apply(s, ShutClose).workers)
  {
    if s.shut.k < |s.workers| { WorkUpdate(s.workers, s.shut.k, Apply(s, ShutClose).workers[s.shut.k]); }
  }

  lemma NothingIsSubmitted(s: State, c: Cid)
    requires Sane(s) && Enabled(s, Enqueue(c)) && AllClosed(s.workers)
    ensures Apply(s, Enqueue(c)).workers == s.workers
  {}

  lemma WorkersStay(s: State, a: Step)
    requires Sane(s) && Enabled(s, a) && s.hasPool && !WorkerStep(a) && !a.ShutClose? && !a.Enqueue?
    ensures Apply(s, a).workers == s.workers
  {
    if a.Snapshot? || a.Deliver? { LoopsLeaveWorkers(s, a); } else { OthersLeaveWorkers(s, a); }
  }

  lemma LoopsLeaveWorkers(s: State, a: Step)
    requires Sane(s) && Enabled(s, a) && (a.Snapshot? || a.Deliver?)
    ensures Apply(s, a).workers == s.workers
  {}

  lemma OthersLeaveWorkers(s: State, a: Step)
    requires Sane(s) && Enabled(s, a) && s.hasPool && !WorkerStep(a) && !a.ShutClose? && !a.Enqueue? && !a.Snapshot?
             && !a.Deliver?
    ensures Apply(s, a).workers == s.workers
  {}

  function WorkerSteps(steps: seq<Step>): nat {
    if steps == [] then 0 else (if WorkerStep(steps[0]) then 1 else 0) + WorkerSteps(steps[1..])
  }

  // Whatever else interleaves, the workers of a closed pool do one unit of work with each step and get no more, as
  // long as none panics.
  lemma {:induction false} EveryRunOfAClosedPoolIsBounded(s: State, steps: seq<Step>)
    requires Shape(s) && Legal(s, steps) && s.hasPool && AllClosed(s.workers) && !Exec(s, steps).crashed
    ensures WorkerSteps(steps) + Work(Exec(s, steps).workers) == Work(s.workers)
    decreases |steps|
  {
    if steps != [] {
      var s' := Apply(s, steps[0]);
      StepKeepsShape(s, steps[0]);
      CrashIsFinal(s', steps[1..]);
      ClosedPoolGetsNoWork(s, steps[0]);
      PoolRemains(s, steps[0]);
      if WorkerStep(steps[0]) { WorkerStepsUseWork(s, steps[0]); }
      EveryRunOfAClosedPoolIsBounded(s', steps[1..]);
    }
  }

  lemma CrashIsFinal(s: State, steps: seq<Step>)
    requires Legal(s, steps) && !Exec(s, steps).crashed
    ensures !s.crashed
  {}

  lemma PoolRemains(s: State, a: Step)
    requires Shape(s) && Sane(s) && Enabled(s, a) && s.hasPool
    ensures Apply(s, a).hasPool
  {
    if TrafficStep(a) { TrafficKeepsChannels(s, a); } else if !ShutStep(a) { OthersKeepChannels(s, a); }
  }

  // A closed pool is never stuck: until every worker has left, some worker can move.
  lemma ClosedPoolCanMove(s: State)
    requires Shape(s) && !s.crashed && AllClosed(s.workers) && !AllExited(s.workers)
    ensures exists a :: WorkerStep(a) && Enabled(s, a)
  {
    var w: nat :| w < |s.workers| && !s.workers[w].exited;
    if s.workers[w].hand.clients != [] { assert Enabled(s, Send(w)); }
    else if s.workers[w].queue != [] { assert Enabled(s, Take(w)); }
    else { assert Enabled(s, Exit(w)); }
  }

  /** Exactly the first k worker channels are closed. */
  predicate ClosedUpTo(ws: seq<Worker>, k: nat) { forall w :: 0 <= w < |ws| ==> (ws[w].closed <==> w < k) }

  /** The channels are closed one after the other, and while the shutdown waits all of them are. */
  ghost predicate ShutOK(s: State) {
    match s.shut
    case NotCalled => ClosedUpTo(s.workers, 0)
    case Closing(k) => s.hasPool && k <= |s.workers| && ClosedUpTo(s.workers, k)
    case Waiting => s.hasPool && ClosedUpTo(s.workers, |s.workers|)
    case Returned => ClosedUpTo(s.workers, 0) || ClosedUpTo(s.workers, |s.workers|)
  }

  predicate ShutStep(a: Step) { a.ShutStart? || a.ShutClose? || a.ShutReturn? }

  lemma ShutStepOK(s: State, a: Step)
    requires Shape(s) && Sane(s) && ShutOK(s) && Enabled(s, a) && ShutStep(a)
    ensures ShutOK(Apply(s, a))
  {}

  /** The shutdown is where it was, and no worker channel was closed or opened. */
  ghost predicate SameChannels(s: State, s': State) {
    && s'.shut == s.shut && (s.hasPool ==> s'.hasPool)
    && (s'.workers != [] && s.workers == [] ==> ClosedUpTo(s'.workers, 0))
    && (s.workers != [] ==> |s'.workers| == |s.workers|)
    && (forall w: nat :: w < |s.workers| && w < |s'.workers| ==> s'.workers[w].closed == s.workers[w].closed)
  }

  predicate TrafficStep(a: Step) { a.Snapshot? || a.Deliver? || a.Enqueue? || a.Take? || a.Send? || a.Exit? }

  lemma TrafficKeepsChannels(s: State, a: Step)
    requires Sane(s) && Enabled(s, a) && TrafficStep(a)
    ensures SameChannels(s, Apply(s, a))
  {
    if WorkerStep(a) { WorkersKeepChannels(s, a); } else { LoopsKeepChannels(s, a); }
  }

  lemma WorkersKeepChannels(s: State, a: Step)
    requires Sane(s) && Enabled(s, a) && WorkerStep(a)
    ensures SameChannels(s, Apply(s, a))
  {}

  lemma LoopsKeepChannels(s: State, a: Step)
    requires Sane(s) && Enabled(s, a) && (a.Snapshot? || a.Deliver? || a.Enqueue?)
    ensures SameChannels(s, Apply(s, a))
  {}

  lemma OthersKeepChannels(s: State, a: Step)
    requires Shape(s) && Sane(s) && Enabled(s, a) && !ShutStep(a) && !TrafficStep(a)
    ensures SameChannels(s, Apply(s, a))
  {}

  lemma StepShutOK(s: State, a: Step)
    requires Shape(s) && Sane(s) && ShutOK(s) && Enabled(s, a)
    ensures ShutOK(Apply(s, a))
  {
    if ShutStep(a) { ShutStepOK(s, a); }
    else if TrafficStep(a) { TrafficKeepsChannels(s, a); }
    else { OthersKeepChannels(s, a); }
  }

  lemma {:induction false} RunShutOK(s: State, steps: seq<Step>)
    requires Shape(s) && ShutOK(s) && Legal(s, steps)
    ensures ShutOK(Exec(s, steps))
    decreases |steps|
  {
    if steps != [] {
      StepKeepsShape(s, steps[0]);
      StepShutOK(s, steps[0]);
      RunShutOK(Apply(s, steps[0]), steps[1..]);
    }
  }

  lemma ReachableShutOK(s: State)
    requires Reachable(s)
    ensures ShutOK(s)
  {
    var run :| Legal(Init(s.limit), run) && Exec(Init(s.limit), run) == s;
    RunShutOK(Init(s.limit), run);
  }

  /** Deliveries of b to c that a worker has been given or that have been offered to c's buffer. */
  function Accounted(s: State, c: Cid, b: nat): nat { Accepted(s, c, b) + Refused(s, c, b) + AtWorkers(s, c, b) }

  /** Deliveries of b to c that no worker was given and that were not offered to c. */
  function Outside(s: State, c: Cid, b: nat): nat { AtSender(s, c, b) + ShardDropped(s, c, b) + GivenUp(s, c, b) }

  predicate OutsideStep(a: Step) { a.Snapshot? || a.Deliver? || a.Enqueue? }

  lemma SameOutside(s: State, a: Step, c: Cid, b: nat)
    requires Shape(s) && Sane(s) && Enabled(s, a) && !OutsideStep(a)
    ensures Outside(Apply(s, a), c, b) == Outside(s, c, b) && Offered(Apply(s, a), c, b) == Offered(s, c, b)
  {
    if QuietStep(a) { QuietTraffic(s, a); SameTrafficOutside(s, Apply(s, a), c, b); } else { LoudOutside(s, a, c, b); }
  }

  lemma SameTrafficOutside(s: State, s': State, c: Cid, b: nat)
    requires Shape(s) && SameTraffic(s, s')
    ensures Outside(s', c, b) == Outside(s, c, b) && Offered(s', c, b) == Offered(s, c, b)
  {
    if b < |s.log| { assert BcastOK(s.log[b], |s.clients|); }
  }

  lemma LoudOutside(s: State, a: Step, c: Cid, b: nat)
    requires Shape(s) && Sane(s) && Enabled(s, a) && !OutsideStep(a) && !QuietStep(a)
    ensures Outside(Apply(s, a), c, b) == Outside(s, c, b) && Offered(Apply(s, a), c, b) == Offered(s, c, b)
  {
    if a.SelfError? || a.Replay? { OwnItemStands(s, a); }
    else if a.Send? { SendStands(s, a.w); }
    else { PoolStands(s, a); }
    LoopsStandOutside(s, Apply(s, a), c, b);
  }

  /** No loop moved, and no delivery was dropped or given up. */
  ghost predicate LoopsStand(s: State, s': State) {
    && s'.log == s.log && s'.shardDrops == s.shardDrops && s'.lost == s.lost && |s'.clients| == |s.clients|
    && forall e: nat :: e < |s.clients| ==> Flight(s'.clients[e].phase) == Flight(s.clients[e].phase)
  }

  lemma LoopsStandOutside(s: State, s': State, c: Cid, b: nat)
    requires LoopsStand(s, s')
    ensures Outside(s', c, b) == Outside(s, c, b) && Offered(s', c, b) == Offered(s, c, b)
  {}

  lemma OwnItemStands(s: State, a: Step)
    requires Sane(s) && Enabled(s, a) && (a.SelfError? || a.Replay?)
    ensures LoopsStand(s, Apply(s, a))
  {}

  lemma SendStands(s: State, w: nat)
    requires Sane(s) && Enabled(s, Send(w))
    ensures LoopsStand(s, Apply(s, Send(w)))
  {}

  lemma PoolStands(s: State, a: Step)
    requires Sane(s) && Enabled(s, a) && (a.Activate? || a.Take? || a.Exit? || a.ShutClose?)
    ensures LoopsStand(s, Apply(s, a))
  {}

  lemma DeliverOutside(s: State, c0: Cid, c: Cid, b: nat)
    requires Shape(s) && Sane(s) && Enabled(s, Deliver(c0))
    ensures Outside(Apply(s, Deliver(c0)), c, b) <= Outside(s, c, b)
            && Offered(Apply(s, Deliver(c0)), c, b) == Offered(s, c, b)
  {
    var s' := Apply(s, Deliver(c0));
    var p := s.clients[c0].phase;
    assert ClientOK(s, c0, s.clients[c0]);
    if s.clients[p.rest[0]].phase.Gone? {
      LoopCounts(s, s', c0, [], c, b);
      JobsAppend(s.lost, Job(p.b, p.rest), c, b);
    } else {
      CountSplit(p.rest, 1, c);
      LoopCounts(s, s', c0, p.rest[1..], c, b);
    }
  }

  lemma EnqueueOutside(s: State, c0: Cid, c: Cid, b: nat)
    requires Shape(s) && Sane(s) && Enabled(s, Enqueue(c0))
    ensures Outside(Apply(s, Enqueue(c0)), c, b) <= Outside(s, c, b)
            && Offered(Apply(s, Enqueue(c0)), c, b) == Offered(s, c, b)
  {
    var s' := Apply(s, Enqueue(c0));
    var p := s.clients[c0].phase;
    assert ClientOK(s, c0, s.clients[c0]);
    ShardRoom(|p.rest|, |s.workers|, p.next, p.chunk);
    if s.workers[p.next].closed {
      LoopCounts(s, s', c0, [], c, b);
      JobsAppend(s.lost, Job(p.b, p.rest), c, b);
    } else {
      var n := Min(p.chunk, |p.rest|);
      CountSplit(p.rest, n, c);
      LoopCounts(s, s', c0, p.rest[n..], c, b);
      JobsAppend(s.shardDrops, Job(p.b, p.rest[..n]), c, b);
    }
  }

  // A delivery given to a worker or offered to its client stays so.
  lemma AccountedGrows(s: State, a: Step, c: Cid, b: nat)
    requires Reachable(s) && Sane(s) && Enabled(s, a)
    ensures Accounted(Apply(s, a), c, b) >= Accounted(s, c, b)
  {
    ReachableBalance(s, c, b);
    StepStaysReachable(s, a);
    ReachableBalance(Apply(s, a), c, b);
    if a.Snapshot? {
      SnapshotAccounted(s, a.c, a.order, c, b);
    } else if a.Deliver? {
      DeliverOutside(s, a.c, c, b);
    } else if a.Enqueue? {
      EnqueueOutside(s, a.c, c, b);
    } else {
      SameOutside(s, a, c, b);
    }
  }

  lemma SnapshotAccounted(s: State, c0: Cid, order: seq<Cid>, c: Cid, b: nat)
    requires Sane(s) && Enabled(s, Snapshot(c0, order))
    ensures Accounted(Apply(s, Snapshot(c0, order)), c, b) == Accounted(s, c, b)
  {}

  lemma {:induction false} RunAccounted(s: State, steps: seq<Step>, c: Cid, b: nat)
    requires Reachable(s) && Legal(s, steps)
    ensures Accounted(Exec(s, steps), c, b) >= Accounted(s, c, b)
    decreases |steps|
  {
    if steps != [] {
      AccountedGrows(s, steps[0], c, b);
      StepStaysReachable(s, steps[0]);
      RunAccounted(Apply(s, steps[0]), steps[1..], c, b);
    }
  }

  // Draining: when the shutdown may return, every delivery that a worker held at any earlier point of the run has been
  // offered to its client, and no worker holds anything.
  lemma ShutdownDrains(s: State, steps: seq<Step>, c: Cid, b: nat)
    requires Reachable(s) && Legal(s, steps) && Enabled(Exec(s, steps), ShutReturn)
    ensures var done := Exec(s, steps);
            && AtWorkers(done, c, b) == 0
            && Accepted(done, c, b) + Refused(done, c, b) >= Accepted(s, c, b) + Refused(s, c, b) + AtWorkers(s, c, b)
  {
    var done := Exec(s, steps);
    RunAccounted(s, steps, c, b);
    EveryReachableStateIsWellFormed(s);
    RunKeepsShape(s, steps);
    assert forall w: nat :: w < |done.workers| ==> WorkerOK(done.workers[w], |done.log|, |done.clients|);
    IdleWorkersCount(done.workers, c, b);
  }

  /** Every client that a worker still has to deliver to is connected. */
  ghost predicate OpenTargets(s: State) {
    forall w: nat, d: nat :: w < |s.workers| && d < |s.clients| && s.clients[d].phase.Gone? ==>
      d !in s.workers[w].hand.clients
          && forall q :: 0 <= q < |s.workers[w].queue| ==> d !in s.workers[w].queue[q].clients
  }

  lemma WorkerStepKeepsOpen(s: State, a: Step)
    requires Shape(s) && Sane(s) && OpenTargets(s) && Enabled(s, a) && WorkerStep(a)
    ensures OpenTargets(Apply(s, a)) && Apply(s, a).crashed == s.crashed && Apply(s, a).shut == s.shut
            && Apply(s, a).hasPool == s.hasPool
    ensures AllClosed(s.workers) ==> AllClosed(Apply(s, a).workers)
  {
    var s' := Apply(s, a);
    var wk, wk' := s.workers[a.w], s'.workers[a.w];
    if a.Send? { assert wk.hand.clients[0] in wk.hand.clients; }
    assert forall d :: d in wk'.hand.clients ==> d in wk.hand.clients || (a.Take? && d in wk.queue[0].clients);
  }

  lemma {:induction false} NoWorkLeft(ws: seq<Worker>)
    requires forall w :: 0 <= w < |ws| ==> ws[w].exited && ws[w].queue == [] && ws[w].hand.clients == []
    ensures Work(ws) == 0
    decreases |ws|
  {
    if ws != [] { NoWorkLeft(ws[1..]); }
  }

  // Termination: with its channels closed and its targets connected, the pool can always be drained to the end, in
  // exactly as many worker steps as there is work.
  lemma {:induction false} ClosedPoolDrains(s: State) returns (steps: seq<Step>)
    requires Shape(s) && !s.crashed && s.hasPool && AllClosed(s.workers) && OpenTargets(s)
    ensures Legal(s, steps) && |steps| == Work(s.workers) && forall i :: 0 <= i < |steps| ==> WorkerStep(steps[i])
    ensures AllExited(Exec(s, steps).workers) && !Exec(s, steps).crashed && Exec(s, steps).shut == s.shut
    decreases Work(s.workers)
  {
    ShapeIsSane(s);
    if AllExited(s.workers) {
      steps := [];
      assert forall w: nat :: w < |s.workers| ==> WorkerOK(s.workers[w], |s.log|, |s.clients|);
      NoWorkLeft(s.workers);
    } else {
      ClosedPoolCanMove(s);
      var a :| WorkerStep(a) && Enabled(s, a);
      StepKeepsShape(s, a);
      WorkerStepKeepsOpen(s, a);
      WorkerStepsUseWork(s, a);
      var rest := ClosedPoolDrains(Apply(s, a));
      steps := [a] + rest;
      assert steps[1..] == rest;
    }
  }

  // A shutdown that waits for the workers can always be brought to its return by worker steps alone.
  lemma ShutdownCanReturn(s: State) returns (steps: seq<Step>)
    requires Reachable(s) && s.shut.Waiting? && !s.crashed && OpenTargets(s)
    ensures Legal(s, steps) && |steps| == Work(s.workers) && forall i :: 0 <= i < |steps| ==> WorkerStep(steps[i])
    ensures Enabled(Exec(s, steps), ShutReturn)
  {
    EveryReachableStateIsWellFormed(s);
    ReachableShutOK(s);
    steps := ClosedPoolDrains(s);
  }
}
