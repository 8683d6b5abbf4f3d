// Exactly when two broadcasts that workers hold for a client can overtake each other on the way to it.
module Overtaking {
  import opened RoomProtocol
  import opened RoomInvariants
  import opened Sharding
  import opened Accounting
  import opened Membership
  import opened PoolShutdown
  import opened RemovalSafety
  import opened WorkerLines
  import opened Lanes
  import opened Ordering

  /** Some steps lead from s to s'. */
  ghost predicate Leads(s: State, s': State) { exists steps :: Legal(s, steps) && Exec(s, steps) == s' }

  lemma LeadsNowhere(s: State)
    requires Reachable(s)
    ensures Leads(s, s)
  {
    EveryReachableStateIsWellFormed(s);
    assert Legal(s, []) && Exec(s, []) == s;
  }

  lemma LeadsOn(s: State, s1: State, s2: State)
    requires Leads(s, s1) && Leads(s1, s2)
    ensures Leads(s, s2)
  {
    var a :| Legal(s, a) && Exec(s, a) == s1;
    var b :| Legal(s1, b) && Exec(s1, b) == s2;
    ExecAppend(s, a, b);
  }

  lemma LeadsOne(s: State, a: Step)
    requires Reachable(s) && Enabled(s, a)
    ensures Sane(s) && Shape(s) && Reachable(Apply(s, a)) && Leads(s, Apply(s, a))
  {
    EveryReachableStateIsWellFormed(s);
    StepStaysReachable(s, a);
    EveryReachableStateIsWellFormed(Apply(s, a));
    assert Legal(Apply(s, a), []) && [a][1..] == [];
    assert Legal(s, [a]) && Exec(s, [a]) == Apply(s, a);
  }

  lemma {:induction false} RunStaysReachable(s: State, steps: seq<Step>)
    requires Reachable(s) && Legal(s, steps)
    ensures Reachable(Exec(s, steps)) && s.log <= Exec(s, steps).log
    decreases |steps|
  {
    if steps != [] {
      LeadsOne(s, steps[0]);
      StaleStays(s, steps[0]);
      RunStaysReachable(Apply(s, steps[0]), steps[1..]);
    }
  }

  // ---- a joining client gets to its read loop ----

  /** The same channels, workers and broadcasts; client c's buffer has at most gained items. */
  ghost predicate Along(s: State, s': State, c: Cid) {
    && At(s, c) && |s'.clients| == |s.clients| && s'.workers == s.workers && s'.log == s.log && s'.crashed == s.crashed
    && (forall d: nat :: d < |s.clients| ==> s'.clients[d].phase.Gone? == s.clients[d].phase.Gone?)
    && s.clients[c].hist <= s'.clients[c].hist
  }

  function JoinRank(p: Phase): nat {
    match p
    case Added(_) => 4
    case Activating => 3
    case Joined => 2
    case Replaying(rest) => |rest| + 1
    case _ => 0
  }

  lemma JoinGoesOn(s: State, c: Cid) returns (s': State)
    requires Reachable(s) && !s.crashed && s.hasPool && At(s, c) && InRoom(s.clients[c].phase)
             && !Started(s.clients[c].phase)
    ensures Leads(s, s') && Reachable(s') && s'.hasPool && Along(s, s', c) && InRoom(s'.clients[c].phase)
    ensures JoinRank(s'.clients[c].phase) < JoinRank(s.clients[c].phase)
  {
    var p := s.clients[c].phase;
    if p.Added? || p.Activating? { s' := AddGoesOn(s, c); } else { s' := HistoryGoesOn(s, c); }
  }

  lemma AddGoesOn(s: State, c: Cid) returns (s': State)
    requires Reachable(s) && !s.crashed && s.hasPool && At(s, c)
             && (s.clients[c].phase.Added? || s.clients[c].phase.Activating?)
    ensures Leads(s, s') && Reachable(s') && s'.hasPool && Along(s, s', c) && InRoom(s'.clients[c].phase)
    ensures JoinRank(s'.clients[c].phase) < JoinRank(s.clients[c].phase)
  {
    var a := if s.clients[c].phase.Added? then AddCheck(c) else Activate(c);
    LeadsOne(s, a);
    s' := Apply(s, a);
  }

  lemma HistoryGoesOn(s: State, c: Cid) returns (s': State)
    requires Reachable(s) && !s.crashed && s.hasPool && At(s, c)
             && (s.clients[c].phase.Joined? || s.clients[c].phase.Replaying?)
    ensures Leads(s, s') && Reachable(s') && s'.hasPool && Along(s, s', c) && InRoom(s'.clients[c].phase)
    ensures JoinRank(s'.clients[c].phase) < JoinRank(s.clients[c].phase)
  {
    var p := s.clients[c].phase;
    var a := if p.Joined? then Query(c, false) else if p.rest == [] then Start(c) else Replay(c, false);
    LeadsOne(s, a);
    s' := Apply(s, a);
  }

  lemma AlongOn(s: State, s1: State, s2: State, c: Cid)
    requires Along(s, s1, c) && Along(s1, s2, c)
    ensures Along(s, s2, c)
  {}

  lemma {:induction false} GetsStarted(s: State, c: Cid) returns (s': State)
    requires Reachable(s) && !s.crashed && s.hasPool && At(s, c) && InRoom(s.clients[c].phase)
    ensures Leads(s, s') && Reachable(s') && Along(s, s', c) && InRoom(s'.clients[c].phase)
            && Started(s'.clients[c].phase)
    decreases JoinRank(s.clients[c].phase)
  {
    if Started(s.clients[c].phase) {
      LeadsNowhere(s);
      s' := s;
    } else {
      var s1 := JoinGoesOn(s, c);
      s' := GetsStarted(s1, c);
      LeadsOn(s, s1, s');
      AlongOn(s, s1, s', c);
    }
  }

  // ---- a worker is run until it has made one delivery ----

  /** Only worker w and the clients' buffers moved. */
  ghost predicate Worked(s: State, s': State, w: nat, c: Cid) {
    && At(s, c) && |s'.clients| == |s.clients| && s'.log == s.log && !s'.crashed
    && (forall d: nat :: d < |s.clients| ==> s'.clients[d].phase == s.clients[d].phase)
    && |s'.workers| == |s.workers| && (forall v: nat :: v < |s.workers| && v != w ==> s'.workers[v] == s.workers[v])
    && s.clients[c].hist <= s'.clients[c].hist
  }

  function Unread(cl: Client): nat { if cl.taken <= |cl.hist| then |cl.hist| - cl.taken else 0 }

  lemma MakeRoom(s: State, w: nat, c: Cid, b: nat) returns (s': State)
    requires Reachable(s) && !s.crashed && WayIsClear(s, w, c, b) && At(s, c) && InRoom(s.clients[c].phase)
             && Started(s.clients[c].phase)
    requires Unread(s.clients[c]) == SEND_BUFFER
    ensures Leads(s, s') && Reachable(s') && Worked(s, s', w, c) && s'.workers == s.workers && WayIsClear(s', w, c, b)
    ensures Unread(s'.clients[c]) < Unread(s.clients[c])
  {
    LeadsOne(s, Consume(c));
    s' := Apply(s, Consume(c));
    SameLineStaysClear(s, s', w, c, b);
  }

  lemma TakeNext(s: State, w: nat, c: Cid, b: nat) returns (s': State)
    requires Reachable(s) && !s.crashed && WayIsClear(s, w, c, b) && At(s, c) && s.workers[w].hand.clients == []
    ensures Leads(s, s') && Reachable(s') && Worked(s, s', w, c) && WayIsClear(s', w, c, b)
    ensures WorkerWork(s'.workers[w]) < WorkerWork(s.workers[w])
  {
    ClearHolds(s, w, c, b);
    LeadsOne(s, Take(w));
    s' := Apply(s, Take(w));
    TakeKeepsLine(s.workers[w], s'.workers[w]);
    SameLineStaysClear(s, s', w, c, b);
  }

  lemma SendNext(s: State, w: nat, c: Cid, b: nat) returns (s': State)
    requires Reachable(s) && !s.crashed && WayIsClear(s, w, c, b) && At(s, c) && s.workers[w].hand.clients != []
    requires Unread(s.clients[c]) < SEND_BUFFER
    ensures Leads(s, s') && Reachable(s') && Worked(s, s', w, c)
    ensures WorkerWork(s'.workers[w]) < WorkerWork(s.workers[w])
    ensures var hand := s.workers[w].hand;
            if hand.message == b && hand.clients[0] == c
                then s'.clients[c].hist == s.clients[c].hist + [Live(b, Via(w))]
            else WayIsClear(s', w, c, b)
  {
    ClearHolds(s, w, c, b);
    LeadsOne(s, Send(w));
    s' := Apply(s, Send(w));
    var hand := s.workers[w].hand;
    assert ClientOK(s, c, s.clients[c]);
    SendDropsHead(s.workers[w], s'.workers[w]);
    if hand.message != b || hand.clients[0] != c { NextStaysClear(s, s', w, c, b); }
  }

  lemma WorkedOn(s: State, s1: State, s2: State, w: nat, c: Cid)
    requires Worked(s, s1, w, c) && Worked(s1, s2, w, c)
    ensures Worked(s, s2, w, c)
  {}

  // A worker whose way to a delivery of b is clear can be run, alone but for the client's reads, until b is the last
  // item in the client's buffer.
  lemma {:induction false} WorkerDelivers(s: State, w: nat, c: Cid, b: nat) returns (s': State)
    requires Reachable(s) && !s.crashed && WayIsClear(s, w, c, b) && At(s, c) && InRoom(s.clients[c].phase)
             && Started(s.clients[c].phase)
    ensures Leads(s, s') && Reachable(s') && Worked(s, s', w, c)
    ensures |s'.clients[c].hist| > |s.clients[c].hist|
            && s'.clients[c].hist[|s'.clients[c].hist| - 1] == Live(b, Via(w))
    decreases WorkerWork(s.workers[w]), Unread(s.clients[c])
  {
    EveryReachableStateIsWellFormed(s);
    assert ClientOK(s, c, s.clients[c]);
    var hand := s.workers[w].hand;
    if Unread(s.clients[c]) < SEND_BUFFER && hand.clients != [] && hand.message == b && hand.clients[0] == c {
      s' := SendNext(s, w, c, b);
    } else {
      var s1;
      if Unread(s.clients[c]) == SEND_BUFFER { s1 := MakeRoom(s, w, c, b); }
      else if hand.clients == [] { s1 := TakeNext(s, w, c, b); }
      else { s1 := SendNext(s, w, c, b); }
      s' := WorkerDelivers(s1, w, c, b);
      LeadsOn(s, s1, s');
      WorkedOn(s, s1, s', w, c);
    }
  }

  // ---- overtaking ----

  lemma {:induction false} HeldInQueue(jobs: seq<Job<nat, Cid>>, q: nat, c: Cid)
    requires q < |jobs| && c in jobs[q].clients
    ensures JobsCount(jobs, c, jobs[q].message) >= 1
    decreases |jobs|
  {
    if q > 0 { HeldInQueue(jobs[1..], q - 1, c); } else { assert c in multiset(jobs[0].clients); }
  }

  lemma HeldIsPending(s: State, w: nat, c: Cid, b: nat)
    requires w < |s.workers| && HoldsFor(s.workers[w], c, b)
    ensures AtWorkers(s, c, b) >= 1
  {
    var wk := s.workers[w];
    WorkersAtLeast(s.workers, w, c, b);
    if wk.hand.message == b && c in wk.hand.clients {
      assert c in multiset(wk.hand.clients);
    } else {
      var q :| 0 <= q < |wk.queue| && wk.queue[q].message == b && c in wk.queue[q].clients;
      HeldInQueue(wk.queue, q, c);
    }
  }

  // A connected client that a worker holds something for is in the room.
  lemma HeldIsInRoom(s: State, w: nat, c: Cid, b: nat)
    requires Reachable(s) && At(s, c) && WayIsClear(s, w, c, b)
    ensures InRoom(s.clients[c].phase) && s.hasPool && b < |s.log| && c in s.log[b].snapshot
  {
    ClearHolds(s, w, c, b);
    HeldIsPending(s, w, c, b);
    PendingWasOffered(s, c, b);
    OfferedExactlyToMembers(s, c, b);
    EveryReachableStateIsWellFormed(s);
  }

  lemma UntouchedStaysClear(s: State, s': State, w: nat, c: Cid, b: nat)
    requires WayIsClear(s, w, c, b) && w < |s'.workers| && s'.workers[w] == s.workers[w]
             && forall d: nat :: IsGone(s', d) ==> IsGone(s, d)
    ensures WayIsClear(s', w, c, b)
  {
    SameLineStaysClear(s, s', w, c, b);
  }

  // From wherever the client is on its way in, it can be brought to receive b.
  lemma ClearDelivers(s: State, w: nat, c: Cid, b: nat) returns (s1: State, s': State)
    requires Reachable(s) && !s.crashed && At(s, c) && WayIsClear(s, w, c, b)
    ensures Leads(s, s1) && Along(s, s1, c) && Reachable(s1) && Started(s1.clients[c].phase)
            && InRoom(s1.clients[c].phase)
    ensures Leads(s, s') && Reachable(s') && Worked(s1, s', w, c)
    ensures var hist := s'.clients[c].hist;
            |hist| > |s1.clients[c].hist| && hist[|hist| - 1] == Live(b, Via(w))
  {
    HeldIsInRoom(s, w, c, b);
    s1 := GetsStarted(s, c);
    UntouchedStaysClear(s, s1, w, c, b);
    s' := WorkerDelivers(s1, w, c, b);
    LeadsOn(s, s1, s');
  }

  // What two different workers hold for a client, with nothing for a removed client before it, can reach the client in
  // either order.
  lemma DifferentWorkersCanOvertake(s: State, c: Cid, b1: nat, b2: nat, w1: nat, w2: nat)
      returns (s': State, p: nat, q: nat)
    requires Reachable(s) && !s.crashed && At(s, c) && w1 != w2 && WayIsClear(s, w1, c, b1) && WayIsClear(s, w2, c, b2)
    ensures Leads(s, s') && |s'.clients| == |s.clients| && p < q < |s'.clients[c].hist|
    ensures s'.clients[c].hist[p] == Live(b2, Via(w2)) && s'.clients[c].hist[q] == Live(b1, Via(w1))
  {
    var s1, mid := ClearDelivers(s, w2, c, b2);
    UntouchedStaysClear(s, s1, w1, c, b1);
    UntouchedStaysClear(s1, mid, w1, c, b1);
    s' := WorkerDelivers(mid, w1, c, b1);
    LeadsOn(s, mid, s');
    p, q := |mid.clients[c].hist| - 1, |s'.clients[c].hist| - 1;
    assert s'.clients[c].hist[p] == mid.clients[c].hist[p];
  }

  /** In some continuation client c receives b2 before b1. */
  ghost predicate CanOvertake(s: State, c: Cid, b1: nat, b2: nat) {
    exists s': State, p: nat, q: nat :: Leads(s, s') && Received(s', c, p, b2) && Received(s', c, q, b1) && p < q
  }

  predicate Received(s: State, c: Cid, p: nat, b: nat) {
    At(s, c) && p < |s.clients[c].hist| && s.clients[c].hist[p].Live? && s.clients[c].hist[p].b == b
  }

  /** In some continuation client c receives b. */
  ghost predicate CanReceive(s: State, c: Cid, b: nat) {
    exists s': State, p: nat :: Leads(s, s') && Received(s', c, p, b)
  }

  lemma BlockedIsNeverReceived(s: State, s': State, w: nat, c: Cid, b: nat, p: nat)
    requires Reachable(s) && Blocked(s, w, c, b) && Leads(s, s')
    ensures !Received(s', c, p, b)
  {
    var steps :| Legal(s, steps) && Exec(s, steps) == s';
    EveryReachableStateIsWellFormed(s);
    RunStaysReachable(s, steps);
    RunKeepsBlocked(s, steps, w, c, b);
    BlockedHolds(s', w, c, b);
    HeldIsPending(s', w, c, b);
    if At(s', c) { PendingIsNotThere(s', c, b); }
  }

  // What a worker holds for a client can still reach it if and only if the worker holds nothing for a removed client at
  // or before it.
  lemma HeldArrivesExactlyWhenWayIsClear(s: State, w: nat, c: Cid, b: nat)
    requires Reachable(s) && !s.crashed && At(s, c) && w < |s.workers| && HoldsFor(s.workers[w], c, b)
    ensures CanReceive(s, c, b) <==> WayIsClear(s, w, c, b)
  {
    if WayIsClear(s, w, c, b) {
      var s1, s' := ClearDelivers(s, w, c, b);
      assert Received(s', c, |s'.clients[c].hist| - 1, b);
    } else {
      ClearOrBlocked(s, w, c, b);
      forall s': State, p: nat | Leads(s, s') ensures !Received(s', c, p, b) {
        BlockedIsNeverReceived(s, s', w, c, b, p);
      }
    }
  }

  lemma HeldHasShardNumber(s: State, w: nat, c: Cid, b: nat)
    requires Reachable(s) && w < |s.workers| && HoldsFor(s.workers[w], c, b)
    ensures b < |s.log| && c in s.log[b].snapshot && ShardNumber(s.log[b].snapshot, c) == w
  {
    ReachableRouted(s);
    EveryReachableStateIsWellFormed(s);
    assert WorkerRouted(s.log, w, s.workers[w]);
    assert b < |s.log| && InShard(s.log[b], w, c);
    assert BcastOK(s.log[b], |s.clients|);
    ShardHasItsNumber(s.log[b], w, c);
  }

  lemma OvertakenIsElsewhere(s: State, s': State, c: Cid, b1: nat, b2: nat, w1: nat, w2: nat, p: nat, q: nat)
    requires Reachable(s) && w1 < |s.workers| && w2 < |s.workers| && b1 < b2 && SameSender(s.log, b1, b2)
    requires HoldsFor(s.workers[w1], c, b1) && HoldsFor(s.workers[w2], c, b2)
    requires Leads(s, s') && Received(s', c, p, b2) && Received(s', c, q, b1) && p < q
    ensures w1 != w2
  {
    HeldHasShardNumber(s, w1, c, b1);
    HeldHasShardNumber(s, w2, c, b2);
    var steps :| Legal(s, steps) && Exec(s, steps) == s';
    RunStaysReachable(s, steps);
    assert s'.log[b1] == s.log[b1] && s'.log[b2] == s.log[b2];
    SameShardKeepsSenderOrder(s', c, p, q);
  }

  // Two broadcasts of one sender that workers hold for a client can overtake each other if and only if the workers
  // differ and neither of them has anything for a removed client at or before its delivery.
  lemma OvertakingExactlyBetweenClearWorkers(s: State, c: Cid, b1: nat, b2: nat, w1: nat, w2: nat)
    requires Reachable(s) && !s.crashed && At(s, c) && w1 < |s.workers| && w2 < |s.workers|
    requires HoldsFor(s.workers[w1], c, b1) && HoldsFor(s.workers[w2], c, b2) && b1 < b2 && SameSender(s.log, b1, b2)
    ensures CanOvertake(s, c, b1, b2) <==> w1 != w2 && WayIsClear(s, w1, c, b1) && WayIsClear(s, w2, c, b2)
  {
    if w1 != w2 && WayIsClear(s, w1, c, b1) && WayIsClear(s, w2, c, b2) {
      var s', p, q := DifferentWorkersCanOvertake(s, c, b1, b2, w1, w2);
      assert Received(s', c, p, b2) && Received(s', c, q, b1);
    }
    if CanOvertake(s, c, b1, b2) {
      var s': State, p: nat, q: nat :| Leads(s, s') && Received(s', c, p, b2) && Received(s', c, q, b1) && p < q;
      OvertakenIsElsewhere(s, s', c, b1, b2, w1, w2, p, q);
      HeldArrivesExactlyWhenWayIsClear(s, w1, c, b1);
      HeldArrivesExactlyWhenWayIsClear(s, w2, c, b2);
    }
  }
}
