// What a worker has still to deliver, in order, and what stands in the way of a delivery.
module WorkerLines {
  import opened Sharding
  import opened RoomProtocol
  import opened RoomInvariants
  import opened PoolShutdown
  import opened QuietSteps
  import opened RemovalSafety

  predicate InQueue(jobs: seq<Job<nat, Cid>>, c: Cid, b: nat) {
    exists q :: 0 <= q < |jobs| && jobs[q].message == b && c in jobs[q].clients
  }

  /** The worker has a delivery of broadcast b to client c before it. */
  predicate HoldsFor(wk: Worker, c: Cid, b: nat) {
    (wk.hand.message == b && c in wk.hand.clients) || InQueue(wk.queue, c, b)
  }

  function JobLine(job: Job<nat, Cid>): (r: seq<(nat, Cid)>)
    ensures |r| == |job.clients| && forall k :: 0 <= k < |r| ==> r[k] == (job.message, job.clients[k])
  {
    seq(|job.clients|, k requires 0 <= k < |job.clients| => (job.message, job.clients[k]))
  }

  function QueueLine(jobs: seq<Job<nat, Cid>>): seq<(nat, Cid)> {
    if jobs == [] then [] else JobLine(jobs[0]) + QueueLine(jobs[1..])
  }

  /** The deliveries (b, c) of broadcast b to client c that a worker has before it, in the order it makes them. */
  function Line(wk: Worker): seq<(nat, Cid)> { JobLine(wk.hand) + QueueLine(wk.queue) }

  lemma {:induction false} InQueueLine(jobs: seq<Job<nat, Cid>>, c: Cid, b: nat)
    ensures (b, c) in QueueLine(jobs) <==> InQueue(jobs, c, b)
    decreases |jobs|
  {
    if jobs != [] {
      InJobLine(jobs[0], c, b);
      InQueueLine(jobs[1..], c, b);
      InQueueFront(jobs, c, b);
    }
  }

  lemma InQueueFront(jobs: seq<Job<nat, Cid>>, c: Cid, b: nat)
    requires jobs != []
    ensures InQueue(jobs, c, b) <==> (jobs[0].message == b && c in jobs[0].clients) || InQueue(jobs[1..], c, b)
  {
    if InQueue(jobs, c, b) {
      var q :| 0 <= q < |jobs| && jobs[q].message == b && c in jobs[q].clients;
      if q > 0 { assert jobs[1..][q - 1] == jobs[q]; }
    }
    if InQueue(jobs[1..], c, b) {
      var q :| 0 <= q < |jobs| - 1 && jobs[1..][q].message == b && c in jobs[1..][q].clients;
      assert jobs[q + 1] == jobs[1..][q];
    }
  }

  lemma InJobLine(job: Job<nat, Cid>, c: Cid, b: nat)
    ensures (b, c) in JobLine(job) <==> job.message == b && c in job.clients
  {
    if job.message == b && c in job.clients {
      var k :| 0 <= k < |job.clients| && job.clients[k] == c;
      assert JobLine(job)[k] == (b, c);
    }
  }

  lemma InLine(wk: Worker, c: Cid, b: nat)
    ensures (b, c) in Line(wk) <==> HoldsFor(wk, c, b)
  {
    InJobLine(wk.hand, c, b);
    InQueueLine(wk.queue, c, b);
  }

  lemma {:induction false} QueueLineAppend(jobs: seq<Job<nat, Cid>>, more: seq<Job<nat, Cid>>)
    ensures QueueLine(jobs + more) == QueueLine(jobs) + QueueLine(more)
    decreases |jobs|
  {
    if jobs == [] {
      assert [] + more == more;
    } else {
      assert (jobs + more)[1..] == jobs[1..] + more;
      QueueLineAppend(jobs[1..], more);
    }
  }

  // ---- how steps change a worker's line ----

  lemma TakeKeepsLine(wk: Worker, wk': Worker)
    requires wk.hand.clients == [] && wk.queue != [] && wk'.hand == wk.queue[0] && wk'.queue == wk.queue[1..]
    ensures Line(wk') == Line(wk)
  {
    assert JobLine(wk.hand) == [];
  }

  lemma SendDropsHead(wk: Worker, wk': Worker)
    requires wk.hand.clients != [] && wk' == wk.(hand := Job(wk.hand.message, wk.hand.clients[1..]))
    ensures Line(wk) == [(wk.hand.message, wk.hand.clients[0])] + Line(wk')
  {
    assert JobLine(wk.hand) == [(wk.hand.message, wk.hand.clients[0])] + JobLine(wk'.hand);
  }

  lemma PushAddsToLine(wk: Worker, job: Job<nat, Cid>)
    ensures Line(wk) <= Line(wk.(queue := wk.queue + [job]))
  {
    QueueLineAppend(wk.queue, [job]);
  }

  /** Worker w's line only grew, or it made the first delivery of it, to a client that is connected. */
  ghost predicate LineMoves(s: State, s': State, w: nat) {
    && w < |s.workers| && w < |s'.workers|
    && var line, line' := Line(s.workers[w]), Line(s'.workers[w]);
       line <= line' || (line != [] && line' == line[1..] && !IsGone(s, line[0].1))
  }

  lemma LoopsMoveLine(s: State, a: Step, w: nat)
    requires Shape(s) && Sane(s) && Enabled(s, a) && (a.Snapshot? || a.Deliver?) && w < |s.workers|
    ensures LineMoves(s, Apply(s, a), w)
  {
    LoopsLeaveWorkers(s, a);
  }

  lemma EnqueueMovesLine(s: State, c: Cid, w: nat)
    requires Shape(s) && Sane(s) && Enabled(s, Enqueue(c)) && w < |s.workers|
    ensures LineMoves(s, Apply(s, Enqueue(c)), w)
  {
    var p, wk' := s.clients[c].phase, Apply(s, Enqueue(c)).workers[w];
    var job := Job(p.b, p.rest[..Min(p.chunk, |p.rest|)]);
    assert wk' == s.workers[w] || wk' == s.workers[w].(queue := s.workers[w].queue + [job]);
    PushAddsToLine(s.workers[w], job);
  }

  lemma TakeMovesLine(s: State, v: nat, w: nat)
    requires Sane(s) && Enabled(s, Take(v)) && w < |s.workers|
    ensures LineMoves(s, Apply(s, Take(v)), w)
  {
    if v == w { TakeKeepsLine(s.workers[w], Apply(s, Take(v)).workers[w]); }
  }

  lemma SendMovesLine(s: State, v: nat, w: nat)
    requires Sane(s) && Enabled(s, Send(v)) && w < |s.workers|
    ensures LineMoves(s, Apply(s, Send(v)), w)
  {
    if v == w && !IsGone(s, s.workers[w].hand.clients[0]) {
      SendDropsHead(s.workers[w], Apply(s, Send(v)).workers[w]);
    } else {
      assert Apply(s, Send(v)).workers[w] == s.workers[w];
    }
  }

  lemma StepMovesLine(s: State, a: Step, w: nat)
    requires Shape(s) && Sane(s) && Enabled(s, a) && w < |s.workers|
    ensures LineMoves(s, Apply(s, a), w)
  {
    if !MovesDelivery(a) { QuietStands(s, a); assert LoadStands(s.workers[w], Apply(s, a).workers[w]); }
    else if a.Enqueue? { EnqueueMovesLine(s, a.c, w); }
    else if a.Take? { TakeMovesLine(s, a.w, w); }
    else if a.Send? { SendMovesLine(s, a.w, w); }
    else { LoopsMoveLine(s, a, w); }
  }

  lemma GoneStays(s: State, a: Step, d: Cid)
    requires Shape(s) && Sane(s) && Enabled(s, a) && IsGone(s, d)
    ensures IsGone(Apply(s, a), d)
  {
    if a.Remove? { RemoveExposesNobody(s, a.c, d); }
    else if !MovesDelivery(a) { QuietStands(s, a); }
    else if a.Take? || a.Send? { GoneStaysWhileWorking(s, a, d); }
    else { GoneStaysWhileLooping(s, a, d); }
  }

  lemma GoneStaysWhileWorking(s: State, a: Step, d: Cid)
    requires Sane(s) && Enabled(s, a) && (a.Take? || a.Send?) && IsGone(s, d)
    ensures IsGone(Apply(s, a), d)
  {}

  lemma GoneStaysWhileLooping(s: State, a: Step, d: Cid)
    requires Sane(s) && Enabled(s, a) && (a.Snapshot? || a.Deliver? || a.Enqueue?) && IsGone(s, d)
    ensures IsGone(Apply(s, a), d)
  {}

  // ---- a delivery behind one for a removed client is never made ----

  /** Worker w's line has a delivery of b to c, and up to there only clients that are connected. */
  ghost predicate WayIsClear(s: State, w: nat, c: Cid, b: nat) {
    w < |s.workers| && exists j :: 0 <= j < |Line(s.workers[w])| && ClearTo(s, w, c, b, j)
  }

  ghost predicate ClearTo(s: State, w: nat, c: Cid, b: nat, j: nat)
    requires w < |s.workers| && j < |Line(s.workers[w])|
  {
    var line := Line(s.workers[w]);
    line[j] == (b, c) && forall i :: 0 <= i <= j ==> !IsGone(s, line[i].1)
  }

  /** Worker w's line has a delivery of b to c, and at or before it one for a removed client. */
  ghost predicate Blocked(s: State, w: nat, c: Cid, b: nat) {
    w < |s.workers|
        && var line := Line(s.workers[w]);
           exists i, j :: 0 <= i <= j < |line| && line[j] == (b, c) && IsGone(s, line[i].1)
  }

  lemma ClearOrBlocked(s: State, w: nat, c: Cid, b: nat)
    requires w < |s.workers| && HoldsFor(s.workers[w], c, b)
    ensures WayIsClear(s, w, c, b) || Blocked(s, w, c, b)
  {
    InLine(s.workers[w], c, b);
    var line := Line(s.workers[w]);
    var j :| 0 <= j < |line| && line[j] == (b, c);
    if !ClearTo(s, w, c, b, j) {
      var i :| 0 <= i <= j && IsGone(s, line[i].1);
    }
  }

  lemma StepKeepsBlocked(s: State, a: Step, w: nat, c: Cid, b: nat)
    requires Shape(s) && Sane(s) && Enabled(s, a) && Blocked(s, w, c, b)
    ensures Blocked(Apply(s, a), w, c, b)
  {
    var s' := Apply(s, a);
    var line := Line(s.workers[w]);
    var i, j :| 0 <= i <= j < |line| && line[j] == (b, c) && IsGone(s, line[i].1);
    StepMovesLine(s, a, w);
    GoneStays(s, a, line[i].1);
    LineKeepsPair(line, Line(s'.workers[w]), i, j);
  }

  // Two places of a line stay in order, unless the first of them is served.
  lemma LineKeepsPair(line: seq<(nat, Cid)>, line': seq<(nat, Cid)>, i: nat, j: nat)
    requires i <= j < |line| && (line <= line' || (line' == line[1..] && i > 0))
    ensures exists i', j' :: 0 <= i' <= j' < |line'| && line'[j'] == line[j] && line'[i'] == line[i]
  {
    if line <= line' {
      assert line'[i] == line[i] && line'[j] == line[j];
    } else {
      assert line'[i - 1] == line[i] && line'[j - 1] == line[j];
    }
  }

  lemma {:induction false} RunKeepsBlocked(s: State, steps: seq<Step>, w: nat, c: Cid, b: nat)
    requires Shape(s) && Legal(s, steps) && Blocked(s, w, c, b)
    ensures Blocked(Exec(s, steps), w, c, b)
    decreases |steps|
  {
    if steps != [] {
      StepKeepsShape(s, steps[0]);
      StepKeepsBlocked(s, steps[0], w, c, b);
      RunKeepsBlocked(Apply(s, steps[0]), steps[1..], w, c, b);
    }
  }

  lemma BlockedHolds(s: State, w: nat, c: Cid, b: nat)
    requires Blocked(s, w, c, b)
    ensures HoldsFor(s.workers[w], c, b)
  {
    InLine(s.workers[w], c, b);
  }

  // ---- the worker's own steps keep the way clear ----

  lemma ClearHolds(s: State, w: nat, c: Cid, b: nat)
    requires WayIsClear(s, w, c, b)
    ensures HoldsFor(s.workers[w], c, b) && !IsGone(s, c)
    ensures s.workers[w].hand.clients != [] ==> !IsGone(s, s.workers[w].hand.clients[0])
  {
    InLine(s.workers[w], c, b);
    var wk := s.workers[w];
    var j :| 0 <= j < |Line(wk)| && ClearTo(s, w, c, b, j);
    if wk.hand.clients != [] { assert Line(wk)[0] == JobLine(wk.hand)[0]; }
  }

  lemma SameLineStaysClear(s: State, s': State, w: nat, c: Cid, b: nat)
    requires WayIsClear(s, w, c, b) && w < |s'.workers| && Line(s'.workers[w]) == Line(s.workers[w])
    requires forall d: nat :: IsGone(s', d) ==> IsGone(s, d)
    ensures WayIsClear(s', w, c, b)
  {
    var j :| 0 <= j < |Line(s.workers[w])| && ClearTo(s, w, c, b, j);
    assert ClearTo(s', w, c, b, j);
  }

  lemma NextStaysClear(s: State, s': State, w: nat, c: Cid, b: nat)
    requires WayIsClear(s, w, c, b) && w < |s'.workers|
    requires var line := Line(s.workers[w]);
             line != [] && line[0] != (b, c) && Line(s'.workers[w]) == line[1..]
    requires forall d: nat :: IsGone(s', d) ==> IsGone(s, d)
    ensures WayIsClear(s', w, c, b)
  {
    var line := Line(s.workers[w]);
    var j :| 0 <= j < |line| && ClearTo(s, w, c, b, j);
    assert forall i :: 0 <= i < |line| - 1 ==> line[1..][i] == line[i + 1];
    assert ClearTo(s', w, c, b, j - 1);
  }
}
