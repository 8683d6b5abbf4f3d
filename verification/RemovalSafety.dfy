// Exactly when closing a client's channel is safe.
module RemovalSafety {
  import opened Sharding
  import opened RoomProtocol
  import opened RoomInvariants
  import opened Membership
  import opened PoolShutdown
  import opened QuietSteps

  predicate NoRemoves(steps: seq<Step>) { forall i :: 0 <= i < |steps| ==> !steps[i].Remove? }

  predicate Holds(wk: Worker, d: Cid) {
    d in wk.hand.clients || exists q :: 0 <= q < |wk.queue| && d in wk.queue[q].clients
  }

  predicate IsGone(s: State, d: Cid) { At(s, d) && s.clients[d].phase.Gone? }

  lemma ExecOne(s: State, a: Step, rest: seq<Step>)
    requires Shape(s) && Sane(s) && Enabled(s, a) && Legal(Apply(s, a), rest)
    ensures Legal(s, [a] + rest) && Exec(s, [a] + rest) == Exec(Apply(s, a), rest)
  {
    assert ([a] + rest)[1..] == rest;
  }

  // A worker that holds a delivery for a removed client can be run into a closed client channel.
  lemma {:induction false} WorkerHitsClosed(s: State, w: nat, d: Cid) returns (steps: seq<Step>)
    requires Shape(s) && !s.crashed && w < |s.workers| && IsGone(s, d) && Holds(s.workers[w], d)
    ensures Legal(s, steps) && NoRemoves(steps) && Exec(s, steps).badSends != s.badSends
    decreases WorkerWork(s.workers[w])
  {
    ShapeIsSane(s);
    var wk := s.workers[w];
    var a := if wk.hand.clients != [] then Send(w) else Take(w);
    StepKeepsShape(s, a);
    var s' := Apply(s, a);
    ShapeIsSane(s');
    if a.Send? && IsGone(s, wk.hand.clients[0]) {
      steps := [a];
      assert Legal(s', []) && [a] + [] == [a];
      ExecOne(s, a, []);
    } else {
      assert Holds(s'.workers[w], d) by { WorkerKeepsHolding(s, a, w, d); }
      var rest := WorkerHitsClosed(s', w, d);
      steps := [a] + rest;
      ExecOne(s, a, rest);
    }
  }

  lemma WorkerKeepsHolding(s: State, a: Step, w: nat, d: Cid)
    requires Sane(s) && Enabled(s, a) && (a == Take(w) || a == Send(w)) && IsGone(s, d) && Holds(s.workers[w], d)
    requires a.Send? ==> !IsGone(s, s.workers[w].hand.clients[0])
    ensures var s' := Apply(s, a);
            && Holds(s'.workers[w], d) && IsGone(s', d) && !s'.crashed && s'.badSends == s.badSends
            && WorkerWork(s'.workers[w]) < WorkerWork(s.workers[w])
  {
    var wk, wk' := s.workers[w], Apply(s, a).workers[w];
    if d in wk.hand.clients {
      var j :| 0 <= j < |wk.hand.clients| && wk.hand.clients[j] == d;
      assert wk'.hand.clients[j - 1] == d;
    } else {
      var q :| 0 <= q < |wk.queue| && d in wk.queue[q].clients;
      if a.Take? && q > 0 { assert wk'.queue[q - 1] == wk.queue[q]; }
    }
  }

  /** The same loops, the same channels and the same faults: only workers and buffers moved. */
  ghost predicate SameLoops(s: State, s': State) {
    && |s'.clients| == |s.clients| && (forall c: nat :: c < |s.clients| ==> s'.clients[c].phase == s.clients[c].phase)
    && |s'.workers| == |s.workers| && (forall w: nat :: w < |s.workers| ==> s'.workers[w].closed == s.workers[w].closed)
    && s'.badSends == s.badSends && s'.crashed == s.crashed
  }

  lemma QuietWorkerStep(s: State, w: nat, a: Step)
    requires Sane(s) && Enabled(s, a) && (a == Take(w) || a == Send(w))
             && forall d :: IsGone(s, d) ==> !Holds(s.workers[w], d)
    ensures var s' := Apply(s, a);
            && SameLoops(s, s') && WorkerWork(s'.workers[w]) < WorkerWork(s.workers[w])
            && forall d :: IsGone(s', d) ==> !Holds(s'.workers[w], d)
  {
    var s' := Apply(s, a);
    var wk, wk' := s.workers[w], s'.workers[w];
    if a.Send? { assert Holds(wk, wk.hand.clients[0]); }
    forall d | Holds(wk', d) ensures Holds(wk, d) {
      if d !in wk'.hand.clients {
        var q :| 0 <= q < |wk'.queue| && d in wk'.queue[q].clients;
        if a.Take? { assert wk.queue[q + 1] == wk'.queue[q]; }
      }
    }
  }

  // A worker that holds nothing for a removed client can be run until its queue is empty.
  lemma {:induction false} WorkerDrains(s: State, w: nat) returns (steps: seq<Step>)
    requires Shape(s) && !s.crashed && w < |s.workers| && forall d :: IsGone(s, d) ==> !Holds(s.workers[w], d)
    ensures Legal(s, steps) && NoRemoves(steps) && SameLoops(s, Exec(s, steps)) && Exec(s, steps).workers[w].queue == []
    decreases WorkerWork(s.workers[w])
  {
    ShapeIsSane(s);
    var wk := s.workers[w];
    if wk.hand.clients == [] && wk.queue == [] {
      steps := [];
    } else {
      var a := if wk.hand.clients != [] then Send(w) else Take(w);
      StepKeepsShape(s, a);
      QuietWorkerStep(s, w, a);
      var rest := WorkerDrains(Apply(s, a), w);
      steps := [a] + rest;
      ExecOne(s, a, rest);
    }
  }

  // A direct delivery loop that still has a removed client ahead runs into a closed client channel.
  lemma {:induction false} LoopHitsClosed(s: State, i: Cid, d: Cid) returns (steps: seq<Step>)
    requires Shape(s) && !s.crashed && At(s, i) && s.clients[i].phase.Delivering? && d in s.clients[i].phase.rest
             && IsGone(s, d)
    ensures Legal(s, steps) && NoRemoves(steps) && Exec(s, steps).badSends != s.badSends
    decreases |s.clients[i].phase.rest|
  {
    ShapeIsSane(s);
    var a := Deliver(i);
    StepKeepsShape(s, a);
    var s' := Apply(s, a);
    ShapeIsSane(s');
    if IsGone(s, s.clients[i].phase.rest[0]) {
      steps := [a];
      assert Legal(s', []) && [a] + [] == [a];
      ExecOne(s, a, []);
    } else {
      LoopGoesOn(s, i, d);
      var rest := LoopHitsClosed(s', i, d);
      steps := [a] + rest;
      ExecOne(s, a, rest);
    }
  }

  lemma LoopGoesOn(s: State, i: Cid, d: Cid)
    requires Shape(s) && Sane(s) && Enabled(s, Deliver(i)) && d in s.clients[i].phase.rest && IsGone(s, d)
    requires !IsGone(s, s.clients[i].phase.rest[0])
    ensures var s' := Apply(s, Deliver(i));
            && At(s', i) && s'.clients[i].phase.Delivering? && s'.clients[i].phase.rest == s.clients[i].phase.rest[1..]
            && d in s'.clients[i].phase.rest && IsGone(s', d) && !s'.crashed && s'.badSends == s.badSends
  {
    assert ClientOK(s, i, s.clients[i]);
  }

  predicate NoneClosed(ws: seq<Worker>) { forall w :: 0 <= w < |ws| ==> !ws[w].closed }

  /** Worker `from` and those after it have open channels. */
  predicate OpenFrom(ws: seq<Worker>, from: nat) { forall w :: from <= w < |ws| ==> !ws[w].closed }

  lemma ShardGoesOn(s: State, i: Cid, d: Cid)
    requires Shape(s) && Sane(s) && Enabled(s, Enqueue(i)) && d in s.clients[i].phase.rest && IsGone(s, d)
    requires s.clients[i].phase.next < |s.workers| && s.workers[s.clients[i].phase.next].queue == []
    requires OpenFrom(s.workers, s.clients[i].phase.next)
    ensures var s', k := Apply(s, Enqueue(i)), s.clients[i].phase.next;
            && OpenFrom(s'.workers, k)
                 && s'.clients[i].phase == Submitting(s.clients[i].phase.b, s'.clients[i].phase.rest,
                      s.clients[i].phase.chunk, k + 1)
            && |s'.workers| == |s.workers| && IsGone(s', d) && !s'.crashed && s'.badSends == s.badSends
            && At(s', i) && s'.clients[i].phase.Submitting? && |s'.clients[i].phase.rest| < |s.clients[i].phase.rest|
            && (Holds(s'.workers[k], d) || d in s'.clients[i].phase.rest)
  {
    var p := s.clients[i].phase;
    assert ClientOK(s, i, s.clients[i]);
    var n := Min(p.chunk, |p.rest|);
    assert p.rest == p.rest[..n] + p.rest[n..];
    var wk' := Apply(s, Enqueue(i)).workers[p.next];
    assert wk'.queue == [Job(p.b, p.rest[..n])];
    if d in p.rest[..n] { assert d in wk'.queue[0].clients; }
  }

  lemma JoinRuns(s: State, drain: seq<Step>, a: Step, rest: seq<Step>)
    requires Shape(s) && Legal(s, drain) && NoRemoves(drain) && !a.Remove? && NoRemoves(rest)
    requires Sane(Exec(s, drain)) && Shape(Exec(s, drain)) && Enabled(Exec(s, drain), a)
             && Legal(Apply(Exec(s, drain), a), rest)
    ensures var steps := drain + ([a] + rest);
            Legal(s, steps) && NoRemoves(steps) && Exec(s, steps) == Exec(Apply(Exec(s, drain), a), rest)
  {
    ExecOne(Exec(s, drain), a, rest);
    ExecAppend(s, drain, [a] + rest);
  }

  lemma DrainedSubmit(s: State, mid: State, i: Cid, d: Cid)
    requires Shape(s) && !s.crashed && SameLoops(s, mid) && At(s, i) && s.clients[i].phase.Submitting?
    requires d in s.clients[i].phase.rest && IsGone(s, d) && OpenFrom(s.workers, s.clients[i].phase.next) && Sane(mid)
    ensures Enabled(mid, Enqueue(i)) && IsGone(mid, d) && OpenFrom(mid.workers, s.clients[i].phase.next)
  {}

  // So does a submit loop, by way of its workers, as long as their channels are open.
  lemma {:induction false} SubmitHitsClosed(s: State, i: Cid, d: Cid) returns (steps: seq<Step>)
    requires Shape(s) && !s.crashed && At(s, i) && s.clients[i].phase.Submitting? && d in s.clients[i].phase.rest
             && IsGone(s, d)
    requires OpenFrom(s.workers, s.clients[i].phase.next)
    ensures Legal(s, steps) && NoRemoves(steps) && Exec(s, steps).badSends != s.badSends
    decreases |s.clients[i].phase.rest|
  {
    ShapeIsSane(s);
    var p := s.clients[i].phase;
    assert ClientOK(s, i, s.clients[i]);
    ShardRoom(|p.rest|, |s.workers|, p.next, p.chunk);
    if x :| IsGone(s, x) && Holds(s.workers[p.next], x) {
      steps := WorkerHitsClosed(s, p.next, x);
    } else {
      var drain := WorkerDrains(s, p.next);
      var mid := Exec(s, drain);
      RunKeepsShape(s, drain);
      ShapeIsSane(mid);
      DrainedSubmit(s, mid, i, d);
      StepKeepsShape(mid, Enqueue(i));
      ShardGoesOn(mid, i, d);
      var s' := Apply(mid, Enqueue(i));
      var rest;
      if Holds(s'.workers[p.next], d) { rest := WorkerHitsClosed(s', p.next, d); }
      else { rest := SubmitHitsClosed(s', i, d); }
      JoinRuns(s, drain, Enqueue(i), rest);
      steps := drain + ([Enqueue(i)] + rest);
    }
  }

  /** Client i's delivery loop still has d ahead, or its submit loop does and can hand on the shard that comes next. */
  predicate LoopReaches(s: State, i: Cid, d: Cid) {
    && At(s, i)
    && var p := s.clients[i].phase;
       || (p.Delivering? && d in p.rest)
       || (p.Submitting? && d in p.rest && p.next < |s.workers| && !s.workers[p.next].closed)
  }

  /** A worker holds a delivery for d, or a loop can still make one. */
  ghost predicate Exposed(s: State, d: Cid) {
    || (exists w: nat :: w < |s.workers| && Holds(s.workers[w], d))
    || (exists i: nat :: LoopReaches(s, i, d))
  }

  /** No removed client is exposed. */
  ghost predicate ClosedUnexposed(s: State) { forall d: nat :: IsGone(s, d) ==> !Exposed(s, d) }

  // Wherever in the pool's shutdown, an exposed removed client is unsafe: some continuation without further removals
  // sends on a closed client channel.
  lemma ExposedClientHitsClosed(s: State, d: Cid) returns (steps: seq<Step>)
    requires Reachable(s) && !s.crashed && IsGone(s, d) && Exposed(s, d)
    ensures Legal(s, steps) && NoRemoves(steps) && Exec(s, steps).badSends != s.badSends
  {
    EveryReachableStateIsWellFormed(s);
    ReachableShutOK(s);
    if w: nat :| w < |s.workers| && Holds(s.workers[w], d) {
      steps := WorkerHitsClosed(s, w, d);
    } else {
      var i: nat :| LoopReaches(s, i, d);
      if s.clients[i].phase.Delivering? { steps := LoopHitsClosed(s, i, d); }
      else { steps := SubmitHitsClosed(s, i, d); }
    }
  }

  // ---- unexposed removed clients stay unexposed ----

  lemma StandsExposes(s: State, s': State, d: Cid)
    requires Stands(s, s')
    requires forall c: nat :: c < |s.clients| && s.clients[c].phase.Submitting? ==> s.workers != []
    ensures Exposed(s', d) ==> Exposed(s, d)
  {
    assert forall w: nat :: w < |s'.workers| && Holds(s'.workers[w], d) ==> w < |s.workers| && Holds(s.workers[w], d);
    assert forall i: nat :: LoopReaches(s', i, d) ==> LoopReaches(s, i, d);
  }

  lemma SubmittersHaveAPool(s: State)
    requires Shape(s)
    ensures forall c: nat :: c < |s.clients| && s.clients[c].phase.Submitting? ==> s.workers != []
  {
    forall c: nat | c < |s.clients| && s.clients[c].phase.Submitting? ensures s.workers != [] {
      assert ClientOK(s, c, s.clients[c]);
    }
  }

  // A step that moves no delivery exposes nobody new.
  lemma QuietExposes(s: State, a: Step, d: Cid)
    requires Shape(s) && Sane(s) && Enabled(s, a) && !MovesDelivery(a)
    ensures Exposed(Apply(s, a), d) ==> Exposed(s, d)
  {
    QuietStands(s, a);
    SubmittersHaveAPool(s);
    StandsExposes(s, Apply(s, a), d);
  }

  // A snapshot holds no removed client.
  lemma SnapshotExposes(s: State, c: Cid, order: seq<Cid>, d: Cid)
    requires Shape(s) && Sane(s) && Enabled(s, Snapshot(c, order)) && IsGone(s, d)
    ensures Exposed(Apply(s, Snapshot(c, order)), d) ==> Exposed(s, d)
  {
    var s' := Apply(s, Snapshot(c, order));
    SnapshotFacts(s, c, order);
    assert ClientOK(s, d, s.clients[d]) && d !in order;
    assert forall i: nat :: LoopReaches(s', i, d) ==> LoopReaches(s, i, d);
  }

  lemma DeliverExposes(s: State, c: Cid, d: Cid)
    requires Sane(s) && Enabled(s, Deliver(c))
    ensures Exposed(Apply(s, Deliver(c)), d) ==> Exposed(s, d)
  {
    var s' := Apply(s, Deliver(c));
    assert forall i: nat :: LoopReaches(s', i, d) ==> LoopReaches(s, i, d);
  }

  lemma PushedHolds(wk: Worker, job: Job<nat, Cid>, d: Cid)
    ensures Holds(wk.(queue := wk.queue + [job]), d) ==> Holds(wk, d) || d in job.clients
  {}

  // A shard only goes to a worker whose channel is open, so its clients were within the loop's reach.
  lemma PushExposes(s: State, c: Cid, d: Cid)
    requires Sane(s) && Enabled(s, Enqueue(c)) && s.clients[c].phase.next < |s.workers|
    ensures forall w: nat :: w < |Apply(s, Enqueue(c)).workers| && Holds(Apply(s, Enqueue(c)).workers[w], d) ==>
              Exposed(s, d)
  {
    var s', p := Apply(s, Enqueue(c)), s.clients[c].phase;
    forall w: nat | w < |s'.workers|
      ensures Holds(s'.workers[w], d) ==> Holds(s.workers[w], d) || LoopReaches(s, c, d)
    {
      PushedHolds(s.workers[w], Job(p.b, p.rest[..Min(p.chunk, |p.rest|)]), d);
    }
  }

  lemma EnqueueExposes(s: State, c: Cid, d: Cid)
    requires Shape(s) && Sane(s) && Enabled(s, Enqueue(c))
    ensures Exposed(Apply(s, Enqueue(c)), d) ==> Exposed(s, d)
  {
    var s', p := Apply(s, Enqueue(c)), s.clients[c].phase;
    assert ClientOK(s, c, s.clients[c]);
    ShardRoom(|p.rest|, |s.workers|, p.next, p.chunk);
    PushExposes(s, c, d);
    assert forall i: nat :: LoopReaches(s', i, d) ==> LoopReaches(s, i, d) by { EnqueueReaches(s, c, d); }
  }

  lemma EnqueueReaches(s: State, c: Cid, d: Cid)
    requires Sane(s) && Enabled(s, Enqueue(c)) && s.clients[c].phase.next < |s.workers|
    ensures forall i: nat :: LoopReaches(Apply(s, Enqueue(c)), i, d) ==> LoopReaches(s, i, d)
  {}

  lemma LessHeld(wk: Worker, wk': Worker, d: Cid)
    requires wk' == wk || (wk.queue != [] && wk'.hand == wk.queue[0] && wk'.queue == wk.queue[1..])
          || (wk.hand.clients != [] && wk'.hand.clients == wk.hand.clients[1..] && wk'.queue == wk.queue)
    ensures Holds(wk', d) ==> Holds(wk, d)
  {
    if Holds(wk', d) && d !in wk'.hand.clients {
      var q :| 0 <= q < |wk'.queue| && d in wk'.queue[q].clients;
      if wk'.queue != wk.queue { assert wk.queue[q + 1] == wk'.queue[q]; }
    }
  }

  lemma TakeExposes(s: State, w: nat, d: Cid)
    requires Sane(s) && Enabled(s, Take(w))
    ensures Exposed(Apply(s, Take(w)), d) ==> Exposed(s, d)
  {
    var s' := Apply(s, Take(w));
    LessHeld(s.workers[w], s'.workers[w], d);
    assert forall v: nat :: v < |s'.workers| && Holds(s'.workers[v], d) ==> Holds(s.workers[v], d);
    assert forall i: nat :: LoopReaches(s', i, d) ==> LoopReaches(s, i, d);
  }

  lemma SendExposes(s: State, w: nat, d: Cid)
    requires Sane(s) && Enabled(s, Send(w)) && !Apply(s, Send(w)).crashed
    ensures Exposed(Apply(s, Send(w)), d) ==> Exposed(s, d)
  {
    var s' := Apply(s, Send(w));
    LessHeld(s.workers[w], s'.workers[w], d);
    assert forall v: nat :: v < |s'.workers| && Holds(s'.workers[v], d) ==> Holds(s.workers[v], d);
    assert forall i: nat :: LoopReaches(s', i, d) ==> LoopReaches(s, i, d);
  }

  // While no removed client is exposed, no step sends on a closed client channel.
  lemma UnexposedIsSilent(s: State, a: Step)
    requires Shape(s) && Sane(s) && ClosedUnexposed(s) && Enabled(s, a)
    ensures Apply(s, a).badSends == s.badSends && !Apply(s, a).crashed
  {
    if a.Deliver? {
      assert LoopReaches(s, a.c, s.clients[a.c].phase.rest[0]) && Exposed(s, s.clients[a.c].phase.rest[0]);
    } else if a.Send? {
      assert Holds(s.workers[a.w], s.workers[a.w].hand.clients[0]) && Exposed(s, s.workers[a.w].hand.clients[0]);
    } else {
      NoOtherBadSend(s, a);
      OnlySendsCrash(s, a);
    }
  }

  lemma OnlySendsCrash(s: State, a: Step)
    requires Sane(s) && Enabled(s, a) && !a.Send?
    ensures !Apply(s, a).crashed
  {}

  lemma StepExposes(s: State, a: Step, d: Cid)
    requires Shape(s) && Sane(s) && Enabled(s, a) && !Apply(s, a).crashed && IsGone(s, d)
    ensures Exposed(Apply(s, a), d) ==> Exposed(s, d)
  {
    if !MovesDelivery(a) { QuietExposes(s, a, d); }
    else { MoveExposes(s, a, d); }
  }

  lemma MoveExposes(s: State, a: Step, d: Cid)
    requires Shape(s) && Sane(s) && Enabled(s, a) && !Apply(s, a).crashed && IsGone(s, d) && MovesDelivery(a)
    ensures Exposed(Apply(s, a), d) ==> Exposed(s, d)
  {
    match a
    case Snapshot(c, order) => SnapshotExposes(s, c, order, d);
    case Deliver(c) => DeliverExposes(s, c, d);
    case Enqueue(c) => EnqueueExposes(s, c, d);
    case Take(w) => TakeExposes(s, w, d);
    case Send(w) => SendExposes(s, w, d);
  }

  lemma GoneWasGone(s: State, a: Step)
    requires Shape(s) && Sane(s) && Enabled(s, a) && !a.Remove?
    ensures forall d: nat :: IsGone(Apply(s, a), d) ==> IsGone(s, d)
  {
    if !MembershipStep(a) { OtherStepsKeepMembership(s, a); }
  }

  // Removing a client exposes and hides nobody.
  lemma RemoveExposesNobody(s: State, c: Cid, d: Cid)
    requires Sane(s) && Enabled(s, Remove(c))
    ensures Exposed(Apply(s, Remove(c)), d) <==> Exposed(s, d)
    ensures Apply(s, Remove(c)).badSends == s.badSends && !Apply(s, Remove(c)).crashed
    ensures IsGone(Apply(s, Remove(c)), d) <==> IsGone(s, d) || d == c
  {
    var s' := Apply(s, Remove(c));
    assert forall i: nat :: LoopReaches(s', i, d) <==> LoopReaches(s, i, d);
  }

  lemma UnexposedStep(s: State, a: Step)
    requires Shape(s) && Sane(s) && ClosedUnexposed(s) && Enabled(s, a) && (a.Remove? ==> !Exposed(s, a.c))
    ensures ClosedUnexposed(Apply(s, a)) && Apply(s, a).badSends == s.badSends && !Apply(s, a).crashed
  {
    UnexposedIsSilent(s, a);
    forall d: nat ensures IsGone(Apply(s, a), d) ==> !Exposed(Apply(s, a), d) {
      if a.Remove? { RemoveExposesNobody(s, a.c, d); } else { GoneStaysUnexposed(s, a, d); }
    }
  }

  lemma GoneStaysUnexposed(s: State, a: Step, d: Cid)
    requires Shape(s) && Sane(s) && ClosedUnexposed(s) && Enabled(s, a) && !a.Remove? && !Apply(s, a).crashed
    ensures IsGone(Apply(s, a), d) ==> !Exposed(Apply(s, a), d)
  {
    GoneWasGone(s, a);
    if IsGone(s, d) { StepExposes(s, a, d); }
  }

  /** Every Remove in the run happens when its client is not exposed. */
  ghost predicate CarefulRemoves(s: State, steps: seq<Step>)
    requires Legal(s, steps)
    decreases |steps|
  {
    steps == [] || ((steps[0].Remove? ==> !Exposed(s, steps[0].c)) && CarefulRemoves(Apply(s, steps[0]), steps[1..]))
  }

  // If clients are only removed while they are not exposed, no send ever hits a closed client channel and no worker
  // panics, whatever else interleaves.
  lemma {:induction false} CarefulRunsNeverSendOnClosed(s: State, steps: seq<Step>)
    requires Shape(s) && ClosedUnexposed(s) && Legal(s, steps) && CarefulRemoves(s, steps) && !s.crashed
    ensures Exec(s, steps).badSends == s.badSends && !Exec(s, steps).crashed
    decreases |steps|
  {
    if steps != [] {
      UnexposedStep(s, steps[0]);
      StepKeepsShape(s, steps[0]);
      CarefulRunsNeverSendOnClosed(Apply(s, steps[0]), steps[1..]);
    }
  }

  lemma {:induction false} NoRemovesIsCareful(s: State, steps: seq<Step>)
    requires Legal(s, steps) && NoRemoves(steps)
    ensures CarefulRemoves(s, steps)
    decreases |steps|
  {
    if steps != [] { NoRemovesIsCareful(Apply(s, steps[0]), steps[1..]); }
  }

  /** No continuation without further removals sends on a closed client channel. */
  ghost predicate ClosedChannelsStaySilent(s: State) {
    forall steps :: Legal(s, steps) && NoRemoves(steps) ==> Exec(s, steps).badSends == s.badSends
  }

  // In every reachable live state, with or without a pool and at any point of its shutdown: the closed channels stay
  // silent if and only if no removed client is exposed.
  lemma SilentExactlyWhenUnexposed(s: State)
    requires Reachable(s) && !s.crashed
    ensures ClosedChannelsStaySilent(s) <==> ClosedUnexposed(s)
  {
    EveryReachableStateIsWellFormed(s);
    if ClosedUnexposed(s) {
      forall steps | Legal(s, steps) && NoRemoves(steps) ensures Exec(s, steps).badSends == s.badSends {
        NoRemovesIsCareful(s, steps);
        CarefulRunsNeverSendOnClosed(s, steps);
      }
    } else {
      var d: nat :| IsGone(s, d) && Exposed(s, d);
      var steps := ExposedClientHitsClosed(s, d);
    }
  }

  // Removing client d leaves the closed channels silent if and only if they were silent before and no worker holds, and
  // no loop can still make, a delivery for d.
  lemma RemoveIsSafeExactlyWhenUnexposed(s: State, d: Cid)
    requires Reachable(s) && Enabled(s, Remove(d)) && Sane(s)
    ensures ClosedChannelsStaySilent(Apply(s, Remove(d))) <==> ClosedChannelsStaySilent(s) && !Exposed(s, d)
  {
    StepStaysReachable(s, Remove(d));
    SilentExactlyWhenUnexposed(s);
    forall x: nat
      ensures Exposed(Apply(s, Remove(d)), x) <==> Exposed(s, x)
      ensures IsGone(Apply(s, Remove(d)), x) <==> IsGone(s, x) || x == d
    {
      RemoveExposesNobody(s, d, x);
    }
    RemoveExposesNobody(s, d, d);
    SilentExactlyWhenUnexposed(Apply(s, Remove(d)));
  }

  lemma TakeStep(s: State, a: Step) returns (s': State)
    requires Reachable(s) && Enabled(s, a)
    ensures Sane(s) && s' == Apply(s, a) && Reachable(s')
  {
    StepStaysReachable(s, a);
    s' := Apply(s, a);
  }

  // One member joining an empty history.
  lemma Join(s: State, c: Cid) returns (s': State)
    requires Reachable(s) && !s.crashed && c == |s.clients| && |s.members| < 2 && s.store == [] && !s.hasPool
    ensures Reachable(s') && |s'.clients| == c + 1 && s'.clients[..c] == s.clients && s'.clients[c].phase == Idle
    ensures s'.members == s.members + {c} && s'.store == [] && s'.log == s.log && !s'.hasPool && !s'.crashed
            && s'.badSends == s.badSends
  {
    s' := TakeStep(s, Connect(0));
    s' := TakeStep(s', AddLock(c));
    s' := TakeStep(s', AddCheck(c));
    s' := TakeStep(s', Query(c, true));
    s' := TakeStep(s', Start(c));
  }

  lemma TwoMembers() returns (s: State)
    ensures Reachable(s) && |s.clients| == 2 && s.clients[0].phase == Idle && s.clients[1].phase == Idle
    ensures s.members == {0, 1} && s.store == [] && s.log == [] && !s.hasPool && !s.crashed && s.badSends == []
  {
    InitReachable(50);
    s := Join(Init(50), 0);
    var first := s;
    s := Join(s, 1);
    assert s.clients[0] == s.clients[..1][0];
  }

  lemma StartTyping(s: State) returns (s': State)
    requires Reachable(s) && |s.clients| == 2 && s.clients[0].phase == Idle && s.clients[1].phase == Idle
    requires s.members == {0, 1} && s.log == [] && !s.hasPool && !s.crashed && s.badSends == []
    ensures Reachable(s') && |s'.clients| == 2 && s'.clients[0].phase == Delivering(0, [1])
            && s'.clients[1].phase == Idle
    ensures !s'.crashed && s'.badSends == []
  {
    s' := TakeStep(s, TypingFrame(0));
    assert (set d | d in [1]) == s'.members - {0};
    s' := TakeStep(s', Snapshot(0, [1]));
  }

  // The hazard is real: a member leaves while another member's typing event is on its way to it.
  lemma SendOnClosedChannelIsReachable() returns (s: State)
    ensures Reachable(s) && s.badSends == [(1, 0)] && |s.clients| == 2 && s.clients[0].phase == Leaving
  {
    s := TwoMembers();
    s := StartTyping(s);
    s := TakeStep(s, Remove(1));
    s := TakeStep(s, Deliver(0));
  }
}
