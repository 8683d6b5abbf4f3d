// Why the order of one sender's messages is only kept along a lane: in a room with a pool, two broadcasts can take
// different workers to the same client and overtake each other.
module Reordering {
  import opened Sharding
  import opened RoomProtocol
  import opened Membership
  import opened RemovalSafety

  function UpTo(n: nat): (r: set<Cid>)
    ensures |r| == n && forall c: nat :: c in r <==> c < n
  {
    if n == 0 then {} else UpTo(n - 1) + {n - 1}
  }

  predicate Unread(cl: Client) { cl.roomID == 0 && cl.hist == [] && cl.taken == 0 }

  predicate Ready(cl: Client) { cl.phase == Idle && Unread(cl) }

  /** n members wait for frames, nothing has been sent, and nobody has begun to shut the room down. */
  ghost predicate Gathered(s: State, n: nat) {
    && Reachable(s) && !s.crashed && |s.clients| == n && s.members == UpTo(n) && s.store == [] && s.log == []
    && s.shut.NotCalled?
    && forall c: nat :: c < n ==> Ready(s.clients[c])
  }

  lemma EnterOne(s: State, n: nat) returns (s': State)
    requires Gathered(s, n)
    ensures Reachable(s') && !s'.crashed && |s'.clients| == n + 1 && s'.clients[..n] == s.clients
    ensures s'.clients[n].phase == Added(n + 1) && Unread(s'.clients[n])
    ensures s'.members == UpTo(n + 1) && s'.store == [] && s'.log == [] && s'.hasPool == s.hasPool
            && s'.shut.NotCalled?
  {
    s' := TakeStep(s, Connect(0));
    s' := TakeStep(s', AddLock(n));
    assert s'.members == UpTo(n + 1);
  }

  lemma JoinOne(s: State, n: nat) returns (s': State)
    requires Gathered(s, n) && n < 9 && !s.hasPool
    ensures Gathered(s', n + 1) && !s'.hasPool
  {
    s' := EnterOne(s, n);
    s' := TakeStep(s', AddCheck(n));
    s' := LookBack(s', n);
    OneMoreGathered(s, s', n);
  }

  lemma OneMoreGathered(s: State, s': State, n: nat)
    requires Gathered(s, n) && Reachable(s') && !s'.crashed && |s'.clients| == n + 1 && s'.clients[..n] == s.clients
             && Ready(s'.clients[n])
    requires s'.members == UpTo(n + 1) && s'.store == [] && s'.log == [] && s'.shut.NotCalled?
    ensures Gathered(s', n + 1)
  {
    assert forall c: nat :: c < n ==> s'.clients[c] == s'.clients[..n][c];
  }

  lemma LookBack(s: State, n: nat) returns (s': State)
    requires Reachable(s) && !s.crashed && |s.clients| == n + 1 && s.store == []
    requires s.clients[n].phase == Joined && Unread(s.clients[n])
    ensures Reachable(s') && !s'.crashed && |s'.clients| == n + 1 && s'.members == s.members && s'.store == []
            && s'.log == s.log && s'.shut == s.shut
    ensures s'.hasPool == s.hasPool && s'.workers == s.workers && Ready(s'.clients[n])
            && s'.clients[..n] == s.clients[..n]
  {
    s' := TakeStep(s, Query(n, true));
    s' := TakeStep(s', Start(n));
  }

  lemma {:induction false} Gather(n: nat) returns (s: State)
    requires n <= 9
    ensures Gathered(s, n) && !s.hasPool
    decreases n
  {
    if n == 0 {
      InitReachable(50);
      s := Init(50);
    } else {
      s := Gather(n - 1);
      s := JoinOne(s, n - 1);
    }
  }

  // The tenth member activates the pool.
  lemma TenthJoins(s: State, n: nat) returns (s': State)
    requires n + 1 == POOL_THRESHOLD && Gathered(s, n) && !s.hasPool
    ensures Gathered(s', n + 1) && s'.hasPool && s'.workers == NewPool(WORKER_COUNT)
  {
    s' := EnterOne(s, n);
    s' := TenthActivates(s', n);
    s' := LookBack(s', n);
    OneMoreGathered(s, s', n);
  }

  lemma TenthActivates(s: State, n: nat) returns (s': State)
    requires Reachable(s) && !s.crashed && |s.clients| == n + 1 == POOL_THRESHOLD && !s.hasPool
             && s.clients[n].phase == Added(n + 1)
    ensures Reachable(s') && !s'.crashed && s'.hasPool && s'.workers == NewPool(WORKER_COUNT)
    ensures |s'.clients| == |s.clients| && s'.clients[..n] == s.clients[..n]
            && s'.clients[n] == s.clients[n].(phase := Joined) && s'.members == s.members && s'.store == s.store
                 && s'.log == s.log && s'.shut == s.shut
  {
    s' := TakeStep(s, AddCheck(n));
    s' := TakeStep(s', Activate(n));
  }

  const HANDS_FREE: Job<nat, Cid> := Job(0, [])

  /** Of ten clients three are left, with the pool; client 0 is at `phase`, and workers 0 and 1 have these queues. */
  ghost predicate Trio(s: State, phase: Phase, q0: seq<Job<nat, Cid>>, q1: seq<Job<nat, Cid>>, log: seq<Bcast>) {
    && Reachable(s) && !s.crashed && |s.clients| == 10 && s.members == {0, 1, 2} && s.hasPool && s.log == log
    && s.shut.NotCalled?
    && s.clients[0].phase == phase && Ready(s.clients[1]) && Ready(s.clients[2])
    && |s.workers| == 10 && s.workers[0] == Worker(q0, HANDS_FREE, false, false)
         && s.workers[1] == Worker(q1, HANDS_FREE, false, false)
  }

  lemma {:induction false} Thin(s: State, k: nat) returns (s': State)
    requires 3 <= k <= 10 && Reachable(s) && !s.crashed && |s.clients| == 10 && s.members == UpTo(k) && s.hasPool
             && s.log == [] && s.shut.NotCalled?
    requires s.workers == NewPool(WORKER_COUNT) && forall c: nat :: c < k ==> Ready(s.clients[c])
    ensures Trio(s', Idle, [], [], [])
    decreases k
  {
    if k == 3 {
      s' := s;
    } else {
      s' := LeaveOne(s, k);
      assert forall c: nat :: c < k - 1 ==> s'.clients[c] == s'.clients[..k - 1][c];
      s' := Thin(s', k - 1);
    }
  }

  lemma LeaveOne(s: State, k: nat) returns (s': State)
    requires 3 < k <= 10 && Reachable(s) && !s.crashed && |s.clients| == 10 && s.members == UpTo(k)
             && Ready(s.clients[k - 1])
    ensures Reachable(s') && !s'.crashed && |s'.clients| == 10 && s'.members == UpTo(k - 1)
    ensures s'.hasPool == s.hasPool && s'.log == s.log && s'.workers == s.workers && s'.shut == s.shut
            && s'.clients[..k - 1] == s.clients[..k - 1]
  {
    s' := TakeStep(s, Remove(k - 1));
    assert s'.members == UpTo(k - 1);
  }

  lemma PooledRoom(n: nat) returns (s: State)
    requires n + 1 == POOL_THRESHOLD
    ensures Gathered(s, n + 1) && s.hasPool && s.workers == NewPool(WORKER_COUNT)
  {
    s := Gather(n);
    s := TenthJoins(s, n);
  }

  lemma FullRoom(n: nat) returns (s: State)
    requires n + 1 == POOL_THRESHOLD
    ensures Trio(s, Idle, [], [], [])
  {
    s := PooledRoom(n);
    s := Thin(s, n + 1);
  }

  // Client 0 announces that it is typing; the map iteration gives the other two in the given order.
  lemma Announce(s: State, q0: seq<Job<nat, Cid>>, q1: seq<Job<nat, Cid>>, log: seq<Bcast>, order: seq<Cid>)
      returns (s': State)
    requires Trio(s, Idle, q0, q1, log) && (order == [1, 2] || order == [2, 1])
    ensures Trio(s', Submitting(|log|, order, 1, 0), q0, q1, log + [Bcast(0, Typing, order)])
  {
    s' := TakeStep(s, TypingFrame(0));
    assert (set d | d in order) == s'.members - {0};
    s' := TakeStep(s', Snapshot(0, order));
  }

  lemma DealOne(s: State, b: nat, x: Cid, y: Cid, q0: seq<Job<nat, Cid>>, q1: seq<Job<nat, Cid>>, log: seq<Bcast>)
      returns (s': State)
    requires Trio(s, Submitting(b, [x, y], 1, 0), q0, q1, log) && |q0| < 16
    ensures Trio(s', Submitting(b, [y], 1, 1), q0 + [Job(b, [x])], q1, log)
  {
    assert [x, y][..1] == [x] && [x, y][1..] == [y];
    s' := TakeStep(s, Enqueue(0));
  }

  lemma DealTwo(s: State, b: nat, y: Cid, q0: seq<Job<nat, Cid>>, q1: seq<Job<nat, Cid>>, log: seq<Bcast>)
      returns (s': State)
    requires Trio(s, Submitting(b, [y], 1, 1), q0, q1, log) && |q1| < 16
    ensures Trio(s', Idle, q0, q1 + [Job(b, [y])], log)
  {
    assert [y][..1] == [y] && [y][1..] == [];
    s' := TakeStep(s, Enqueue(0));
    s' := TakeStep(s', Finish(0));
  }

  // One announcement to both others, dealt to workers 0 and 1.
  lemma AnnounceAndDeal(s: State, q0: seq<Job<nat, Cid>>, q1: seq<Job<nat, Cid>>, log: seq<Bcast>, x: Cid, y: Cid)
      returns (s': State)
    requires Trio(s, Idle, q0, q1, log) && ((x == 1 && y == 2) || (x == 2 && y == 1)) && |q0| < 16 && |q1| < 16
    ensures Trio(s', Idle, q0 + [Job(|log|, [x])], q1 + [Job(|log|, [y])], log + [Bcast(0, Typing, [x, y])])
  {
    s' := Announce(s, q0, q1, log, [x, y]);
    s' := DealOne(s', |log|, x, y, q0, q1, log + [Bcast(0, Typing, [x, y])]);
    s' := DealTwo(s', |log|, y, q0 + [Job(|log|, [x])], q1, log + [Bcast(0, Typing, [x, y])]);
  }

  lemma BothAnnounced() returns (s: State)
    ensures Trio(s, Idle, [Job(0, [1]), Job(1, [2])], [Job(0, [2]), Job(1, [1])],
            [Bcast(0, Typing, [1, 2]), Bcast(0, Typing, [2, 1])])
  {
    s := FullRoom(9);
    s := AnnounceAndDeal(s, [], [], [], 1, 2);
    s := AnnounceAndDeal(s, [Job(0, [1])], [Job(0, [2])], [Bcast(0, Typing, [1, 2])], 2, 1);
  }

  // Worker w takes its next job and delivers it to the job's one client.
  lemma Work(s: State, w: nat) returns (s': State)
    requires Reachable(s) && !s.crashed && w < |s.workers| && s.workers[w].hand.clients == []
             && s.workers[w].queue != []
    requires var job := s.workers[w].queue[0];
             |job.clients| == 1 && At(s, job.clients[0]) && s.clients[job.clients[0]].phase == Idle
             && s.clients[job.clients[0]].taken == 0 && |s.clients[job.clients[0]].hist| < 256
    ensures var job := s.workers[w].queue[0]; var cl := s.clients[job.clients[0]];
            && Reachable(s') && !s'.crashed && s'.log == s.log && |s'.clients| == |s.clients|
                 && |s'.workers| == |s.workers|
            && s'.clients == s.clients[job.clients[0] := cl.(hist := cl.hist + [Live(job.message, Via(w))])]
            && s'.workers == s.workers[w := s.workers[w].(queue := s.workers[w].queue[1..],
                 hand := Job(job.message, []))]
  {
    s' := TakeStep(s, Take(w));
    assert s'.workers[w].hand == s.workers[w].queue[0] && s'.workers[w].hand.clients[1..] == [];
    s' := TakeStep(s', Send(w));
  }

  // Order across lanes is not kept: a client can get the later of two broadcasts by one sender first.
  lemma PooledRoomCanReorder() returns (s: State)
    ensures Reachable(s) && |s.clients| == 10 && |s.log| == 2 && s.log[0].sender == s.log[1].sender == 0
    ensures s.clients[1].hist == [Live(1, Via(1)), Live(0, Via(0))]
  {
    s := BothAnnounced();
    s := Work(s, 1);
    s := Work(s, 1);
    s := Work(s, 0);
  }
}
