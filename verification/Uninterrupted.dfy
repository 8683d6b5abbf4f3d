// The steps of one Broadcast, taken without interruption, do what the methods of the hub package say.
module Uninterrupted {
  import opened Sharding
  import opened RoomProtocol
  import opened RoomInvariants
  import opened PoolShutdown
  import opened RemovalSafety

  function Buffer(cl: Client): seq<Item>
    requires cl.taken <= |cl.hist|
  {
    cl.hist[cl.taken..]
  }

  // A send step is the non-blocking send of Client.SendRaw, and the writer takes the oldest item.
  lemma AcceptIsOffer(cl: Client, x: Item)
    requires cl.taken <= |cl.hist|
    ensures Buffer(Accept(cl, x)) == Offer(Buffer(cl), x, SEND_BUFFER)
    ensures cl.hist[..cl.taken] == Accept(cl, x).hist[..cl.taken]
  {}

  function Queues(s: State): seq<seq<Job<nat, Cid>>> {
    seq(|s.workers|, w requires 0 <= w < |s.workers| => s.workers[w].queue)
  }

  /** Queue k after the submit loop has dealt out the given shards from worker `next` on. */
  function Dealt(queue: seq<Job<nat, Cid>>, b: nat, shards: seq<seq<Cid>>, next: nat, k: nat): seq<Job<nat, Cid>> {
    if next <= k < next + |shards| then Offer(queue, Job(b, shards[k - next]), WORKER_BUFFER) else queue
  }

  ghost predicate SubmitDone(s: State, s': State, i: Cid)
    requires At(s, i) && s.clients[i].phase.Submitting? && s.clients[i].phase.chunk > 0
  {
    var p := s.clients[i].phase;
    && |s'.clients| == |s.clients| && |s'.workers| == |s.workers| && !s'.crashed
    && s'.clients[i].phase.Submitting? && s'.clients[i].phase.rest == []
    && (forall k: nat :: k < |s.workers| ==>
         s'.workers[k].queue == Dealt(s.workers[k].queue, p.b, Chunks(p.rest, p.chunk), p.next, k))
    && (forall d: nat :: d < |s.clients| && d != i ==> s'.clients[d] == s.clients[d])
  }

  lemma OneShard(s: State, i: Cid)
    requires Shape(s) && Sane(s) && Enabled(s, Enqueue(i)) && NoneClosed(s.workers)
    ensures var s', p := Apply(s, Enqueue(i)), s.clients[i].phase; var n := Min(p.chunk, |p.rest|);
            && |s'.workers| == |s.workers| && |s'.clients| == |s.clients| && NoneClosed(s'.workers) && !s'.crashed
            && p.next < |s.workers| && s'.clients[i].phase == Submitting(p.b, p.rest[n..], p.chunk, p.next + 1)
            && (forall k: nat :: k < |s.workers| ==>
                  s'.workers[k].queue == if k == p.next
                      then Offer(s.workers[k].queue, Job(p.b, p.rest[..n]), WORKER_BUFFER) else s.workers[k].queue)
            && (forall d: nat :: d < |s.clients| && d != i ==> s'.clients[d] == s.clients[d])
  {
    var p := s.clients[i].phase;
    assert ClientOK(s, i, s.clients[i]);
    ShardRoom(|p.rest|, |s.workers|, p.next, p.chunk);
  }

  lemma {:induction false} SubmitRun(s: State, i: Cid) returns (steps: seq<Step>)
    requires Shape(s) && !s.crashed && At(s, i) && s.clients[i].phase.Submitting? && s.clients[i].phase.chunk > 0
             && NoneClosed(s.workers)
    ensures Legal(s, steps) && SubmitDone(s, Exec(s, steps), i)
            && forall k :: 0 <= k < |steps| ==> steps[k] == Enqueue(i)
    decreases |s.clients[i].phase.rest|
  {
    ShapeIsSane(s);
    var p := s.clients[i].phase;
    if p.rest == [] {
      steps := [];
    } else {
      OneShard(s, i);
      StepKeepsShape(s, Enqueue(i));
      var s' := Apply(s, Enqueue(i));
      var rest := SubmitRun(s', i);
      steps := [Enqueue(i)] + rest;
      ExecOne(s, Enqueue(i), rest);
      var shards := Chunks(p.rest, p.chunk);
      assert shards[1..] == Chunks(p.rest[Min(p.chunk, |p.rest|)..], p.chunk);
      var done := Exec(s', rest);
      forall k: nat | k < |s.workers|
        ensures done.workers[k].queue == Dealt(s.workers[k].queue, p.b, shards, p.next, k)
      {
        assert done.workers[k].queue == Dealt(s'.workers[k].queue, p.b, shards[1..], p.next + 1, k);
      }
    }
  }

  // The submit loop to its end, and back to the read loop.
  lemma SubmitThenFinish(s: State, i: Cid) returns (steps: seq<Step>)
    requires Shape(s) && !s.crashed && At(s, i) && s.clients[i].phase.Submitting? && s.clients[i].phase.chunk > 0
             && NoneClosed(s.workers)
    ensures Legal(s, steps) && |steps| >= 1 && steps[|steps| - 1] == Finish(i)
            && forall k :: 0 <= k < |steps| - 1 ==> steps[k] == Enqueue(i)
    ensures var s', p := Exec(s, steps), s.clients[i].phase;
            && At(s', i) && s'.clients[i].phase == Idle && |s'.workers| == |s.workers|
            && (forall k: nat :: k < |s.workers| ==>
                 s'.workers[k].queue == Dealt(s.workers[k].queue, p.b, Chunks(p.rest, p.chunk), p.next, k))
  {
    var run := SubmitRun(s, i);
    var s2 := Exec(s, run);
    RunKeepsShape(s, run);
    StepKeepsShape(s2, Finish(i));
    var s3 := Apply(s2, Finish(i));
    ShapeIsSane(s3);
    assert Legal(s3, []);
    ExecOne(s2, Finish(i), []);
    ExecAppend(s, run, [Finish(i)] + []);
    steps := run + ([Finish(i)] + []);
    assert s3.workers == s2.workers;
  }

  // The steps of a pooled broadcast with nothing in between, its snapshot, its submit loop and its end, leave the
  // worker queues that Submit computes.
  lemma PooledBroadcastIsSubmit(s: State, i: Cid, order: seq<Cid>) returns (steps: seq<Step>)
    requires Reachable(s) && Enabled(s, Snapshot(i, order)) && s.hasPool && NoneClosed(s.workers)
    ensures Legal(s, steps) && |s.workers| > 0
    ensures |steps| >= 2 && steps[0] == Snapshot(i, order) && steps[|steps| - 1] == Finish(i)
            && forall k :: 0 < k < |steps| - 1 ==> steps[k] == Enqueue(i)
    ensures Queues(Exec(s, steps)) == SubmitAll(Queues(s), Job(|s.log|, order))
    ensures At(Exec(s, steps), i) && Exec(s, steps).clients[i].phase == Idle
  {
    EveryReachableStateIsWellFormed(s);
    var s1 := Apply(s, Snapshot(i, order));
    SnapshotBegins(s, i, order, s1);
    var run := SubmitThenFinish(s1, i);
    ExecOne(s, Snapshot(i, order), run);
    steps := [Snapshot(i, order)] + run;
    DealtIsSubmitAll(Queues(s), Queues(Exec(s1, run)), Job(|s.log|, order), Chunks(order, s1.clients[i].phase.chunk));
  }

  lemma SnapshotBegins(s: State, i: Cid, order: seq<Cid>, s1: State)
    requires Shape(s) && Sane(s) && Enabled(s, Snapshot(i, order)) && s.hasPool && s1 == Apply(s, Snapshot(i, order))
    ensures Shape(s1) && !s1.crashed && At(s1, i) && s1.workers == s.workers && |s.workers| > 0
    ensures var chunk := ChunkSize(|order|, |s.workers|);
            chunk > 0 && s1.clients[i].phase == Submitting(|s.log|, order, chunk, 0)
  {
    StepKeepsShape(s, Snapshot(i, order));
    assert ClientOK(s1, i, s1.clients[i]);
  }

  lemma DealtIsSubmitAll(before: seq<seq<Job<nat, Cid>>>, after: seq<seq<Job<nat, Cid>>>, job: Job<nat, Cid>,
      shards: seq<seq<Cid>>)
    requires |before| == |after| > 0 && shards == Chunks(job.clients, ChunkSize(|job.clients|, |before|))
    requires forall k: nat :: k < |before| ==> after[k] == Dealt(before[k], job.message, shards, 0, k)
    ensures after == SubmitAll(before, job)
  {}

  /** Every client in the list has been offered broadcast b, and nobody else. */
  ghost predicate DeliverDone(s: State, s': State, i: Cid)
    requires At(s, i) && s.clients[i].phase.Delivering?
  {
    var p := s.clients[i].phase;
    && |s'.clients| == |s.clients| && !s'.crashed
    && s'.clients[i].phase == Delivering(p.b, [])
    && (forall d: nat :: d < |s.clients| ==>
          && s.clients[d].taken <= |s.clients[d].hist|
               && s'.clients[d].taken == s.clients[d].taken <= |s'.clients[d].hist|
          && Buffer(s'.clients[d]) == if d in p.rest
               then Offer(Buffer(s.clients[d]), Live(p.b, Direct), SEND_BUFFER) else Buffer(s.clients[d]))
  }

  lemma OneSend(s: State, i: Cid)
    requires Shape(s) && Sane(s) && Enabled(s, Deliver(i)) && !IsGone(s, s.clients[i].phase.rest[0])
    ensures var s', p := Apply(s, Deliver(i)), s.clients[i].phase;
            && |s'.clients| == |s.clients| && !s'.crashed && s'.clients[i].phase == Delivering(p.b, p.rest[1..])
            && (forall d: nat :: d < |s.clients| && d != i ==> s'.clients[d].phase == s.clients[d].phase)
            && (forall d: nat :: d < |s.clients| ==>
                  && s.clients[d].taken <= |s.clients[d].hist|
                       && s'.clients[d].taken == s.clients[d].taken <= |s'.clients[d].hist|
                  && Buffer(s'.clients[d]) == if d == p.rest[0]
                       then Offer(Buffer(s.clients[d]), Live(p.b, Direct), SEND_BUFFER) else Buffer(s.clients[d]))
  {
    var p := s.clients[i].phase;
    AcceptIsOffer(s.clients[p.rest[0]], Live(p.b, Direct));
  }

  lemma OneMoreOffered(s: State, s': State, s'': State, i: Cid)
    requires Shape(s) && Sane(s) && Enabled(s, Deliver(i)) && !IsGone(s, s.clients[i].phase.rest[0])
             && s' == Apply(s, Deliver(i))
    requires At(s', i) && s'.clients[i].phase.Delivering? && DeliverDone(s', s'', i)
    ensures DeliverDone(s, s'', i)
  {
    OneSend(s, i);
    assert ClientOK(s, i, s.clients[i]);
    var rest := s.clients[i].phase.rest;
    assert rest == [rest[0]] + rest[1..] && rest[0] !in rest[1..];
  }

  lemma NothingToDeliver(s: State, i: Cid)
    requires Shape(s) && !s.crashed && At(s, i) && s.clients[i].phase.Delivering? && s.clients[i].phase.rest == []
    ensures DeliverDone(s, s, i)
  {
    assert forall d: nat :: d < |s.clients| ==> ClientOK(s, d, s.clients[d]);
  }

  lemma RestIsConnected(s: State, i: Cid, s': State)
    requires Shape(s) && Sane(s) && Enabled(s, Deliver(i)) && s' == Apply(s, Deliver(i))
    requires forall d <- s.clients[i].phase.rest :: !IsGone(s, d)
    ensures !s'.crashed && At(s', i) && s'.clients[i].phase.Delivering?
            && s'.clients[i].phase.rest == s.clients[i].phase.rest[1..]
    ensures forall d <- s'.clients[i].phase.rest :: !IsGone(s', d)
  {
    OneSend(s, i);
    forall d | d in s'.clients[i].phase.rest ensures !IsGone(s', d) {
      assert d in s.clients[i].phase.rest;
    }
  }

  // The deliveries of a direct broadcast with nothing in between offer the message to every client of its snapshot.
  lemma {:induction false} DirectRunOffersToAll(s: State, i: Cid) returns (steps: seq<Step>)
    requires Shape(s) && !s.crashed && At(s, i) && s.clients[i].phase.Delivering?
    requires forall d <- s.clients[i].phase.rest :: !IsGone(s, d)
    ensures Legal(s, steps) && DeliverDone(s, Exec(s, steps), i)
            && forall k :: 0 <= k < |steps| ==> steps[k] == Deliver(i)
    decreases |s.clients[i].phase.rest|
  {
    ShapeIsSane(s);
    if s.clients[i].phase.rest == [] {
      NothingToDeliver(s, i);
      steps := [];
    } else {
      StepKeepsShape(s, Deliver(i));
      var s' := Apply(s, Deliver(i));
      RestIsConnected(s, i, s');
      var rest := DirectRunOffersToAll(s', i);
      steps := [Deliver(i)] + rest;
      ExecOne(s, Deliver(i), rest);
      OneMoreOffered(s, s', Exec(s', rest), i);
    }
  }

  // ---- a worker on its own ----

  /** What a worker has in its hands and its queue, as jobs. */
  function Load(wk: Worker): seq<Job<nat, Cid>> { (if wk.hand.clients == [] then [] else [wk.hand]) + wk.queue }

  function ViaItems(messages: seq<nat>, w: nat): (r: seq<Item>)
    ensures |r| == |messages|
  {
    seq(|messages|, k requires 0 <= k < |messages| => Live(messages[k], Via(w)))
  }

  /** Every client was offered what worker w held for it, in order, and w holds nothing any more. */
  ghost predicate WorkerDone(s: State, s': State, w: nat)
    requires w < |s.workers|
  {
    && |s'.clients| == |s.clients| && |s'.workers| == |s.workers| && !s'.crashed && Load(s'.workers[w]) == []
    && (forall v: nat :: v < |s.workers| && v != w ==> s'.workers[v] == s.workers[v])
    && (forall d: nat :: d < |s.clients| ==>
          && s.clients[d].taken <= |s.clients[d].hist|
               && s'.clients[d].taken == s.clients[d].taken <= |s'.clients[d].hist|
          && Buffer(s'.clients[d])
             == OfferAll(Buffer(s.clients[d]), ViaItems(MessagesFor(Load(s.workers[w]), d), w), SEND_BUFFER))
  }

  lemma LoadAfterTake(wk: Worker, wk': Worker, d: Cid)
    requires wk.hand.clients == [] && wk.queue != [] && wk'.hand == wk.queue[0] && wk'.queue == wk.queue[1..]
    ensures MessagesFor(Load(wk'), d) == MessagesFor(Load(wk), d)
  {
    assert wk.queue == [wk.queue[0]] + wk.queue[1..] && [] + wk.queue == wk.queue;
    if wk.queue[0].clients == [] {
      MessagesForAppend([wk.queue[0]], wk.queue[1..], d);
      assert [wk.queue[0]][..0] == [] && [] + wk.queue[1..] == wk.queue[1..];
    }
  }

  lemma LoadAfterSend(wk: Worker, wk': Worker, d: Cid)
    requires wk.hand.clients != [] && wk'.hand == Job(wk.hand.message, wk.hand.clients[1..]) && wk'.queue == wk.queue
    ensures MessagesFor(Load(wk), d)
            == (if wk.hand.clients[0] == d then [wk.hand.message] else []) + MessagesFor(Load(wk'), d)
  {
    MessagesForAppend([wk.hand], wk.queue, d);
    MessagesForAppend([wk'.hand], wk.queue, d);
    assert [wk.hand][..0] == [] && [wk'.hand][..0] == [];
    MessagesInJobFront(wk.hand.message, wk.hand.clients, d);
    if wk'.hand.clients == [] { assert [] + wk.queue == wk.queue; }
  }

  lemma OneTaken(s: State, s': State, s'': State, w: nat)
    requires Sane(s) && Enabled(s, Take(w)) && s' == Apply(s, Take(w)) && WorkerDone(s', s'', w)
    ensures WorkerDone(s, s'', w)
  {
    forall d: nat | d < |s.clients|
      ensures MessagesFor(Load(s'.workers[w]), d) == MessagesFor(Load(s.workers[w]), d)
    {
      LoadAfterTake(s.workers[w], s'.workers[w], d);
    }
  }

  lemma FirstOffered(buffer: seq<Item>, messages: seq<nat>, m: nat, w: nat)
    ensures OfferAll(buffer, ViaItems([m] + messages, w), SEND_BUFFER)
         == OfferAll(Offer(buffer, Live(m, Via(w)), SEND_BUFFER), ViaItems(messages, w), SEND_BUFFER)
  {
    assert ViaItems([m] + messages, w)[1..] == ViaItems(messages, w);
  }

  /** Worker w offered its message to the first client of its list. */
  ghost predicate SentOne(s: State, s': State, w: nat)
    requires w < |s.workers| && s.workers[w].hand.clients != []
  {
    var hand := s.workers[w].hand;
    && |s'.clients| == |s.clients| && |s'.workers| == |s.workers|
    && s'.workers == s.workers[w := s.workers[w].(hand := Job(hand.message, hand.clients[1..]))]
    && (forall d: nat :: d < |s.clients| ==>
          && s.clients[d].taken <= |s.clients[d].hist|
               && s'.clients[d].taken == s.clients[d].taken <= |s'.clients[d].hist|
          && Buffer(s'.clients[d]) == if d == hand.clients[0]
               then Offer(Buffer(s.clients[d]), Live(hand.message, Via(w)), SEND_BUFFER)
                                      else Buffer(s.clients[d]))
  }

  lemma SendSendsOne(s: State, w: nat)
    requires Sane(s) && Enabled(s, Send(w)) && !IsGone(s, s.workers[w].hand.clients[0])
    ensures SentOne(s, Apply(s, Send(w)), w)
  {
    var hand := s.workers[w].hand;
    AcceptIsOffer(s.clients[hand.clients[0]], Live(hand.message, Via(w)));
  }

  lemma OneSent(s: State, s': State, s'': State, w: nat)
    requires w < |s.workers| && s.workers[w].hand.clients != [] && SentOne(s, s', w) && WorkerDone(s', s'', w)
    ensures WorkerDone(s, s'', w)
  {
    forall d: nat | d < |s.clients|
      ensures Buffer(s''.clients[d])
           == OfferAll(Buffer(s.clients[d]), ViaItems(MessagesFor(Load(s.workers[w]), d), w), SEND_BUFFER)
    {
      OfferedThen(s.workers[w], s'.workers[w], Buffer(s.clients[d]), Buffer(s'.clients[d]), d, w);
    }
  }

  lemma OfferedThen(wk: Worker, wk': Worker, before: seq<Item>, mid: seq<Item>, d: Cid, w: nat)
    requires wk.hand.clients != [] && wk' == wk.(hand := Job(wk.hand.message, wk.hand.clients[1..]))
    requires mid == if d == wk.hand.clients[0]
             then Offer(before, Live(wk.hand.message, Via(w)), SEND_BUFFER) else before
    ensures OfferAll(mid, ViaItems(MessagesFor(Load(wk'), d), w), SEND_BUFFER)
         == OfferAll(before, ViaItems(MessagesFor(Load(wk), d), w), SEND_BUFFER)
  {
    LoadAfterSend(wk, wk', d);
    if d == wk.hand.clients[0] {
      FirstOffered(before, MessagesFor(Load(wk'), d), wk.hand.message, w);
    } else {
      assert [] + MessagesFor(Load(wk'), d) == MessagesFor(Load(wk'), d);
    }
  }

  // The takes and sends of a worker with nothing in between do what the worker method says: they offer every message of
  // its jobs to each of their clients, in order, and leave it with nothing.
  lemma {:induction false} WorkerRunIsWorker(s: State, w: nat) returns (steps: seq<Step>)
    requires Shape(s) && !s.crashed && w < |s.workers| && forall d: nat :: IsGone(s, d) ==> !Holds(s.workers[w], d)
    ensures Legal(s, steps) && WorkerDone(s, Exec(s, steps), w)
            && forall k :: 0 <= k < |steps| ==> steps[k] == Take(w) || steps[k] == Send(w)
    decreases WorkerWork(s.workers[w])
  {
    ShapeIsSane(s);
    var wk := s.workers[w];
    if wk.hand.clients == [] && wk.queue == [] {
      assert forall d: nat :: d < |s.clients| ==> ClientOK(s, d, s.clients[d]);
      steps := [];
    } else {
      var a := if wk.hand.clients != [] then Send(w) else Take(w);
      StepKeepsShape(s, a);
      QuietWorkerStep(s, w, a);
      var s' := Apply(s, a);
      var rest := WorkerRunIsWorker(s', w);
      steps := [a] + rest;
      ExecOne(s, a, rest);
      if a.Take? { OneTaken(s, s', Exec(s', rest), w); }
      else { HeadIsConnected(s, w); SendSendsOne(s, w); OneSent(s, s', Exec(s', rest), w); }
    }
  }

  lemma HeadIsConnected(s: State, w: nat)
    requires w < |s.workers| && s.workers[w].hand.clients != []
             && forall d: nat :: IsGone(s, d) ==> !Holds(s.workers[w], d)
    ensures !IsGone(s, s.workers[w].hand.clients[0])
  {
    assert Holds(s.workers[w], s.workers[w].hand.clients[0]);
  }
}
