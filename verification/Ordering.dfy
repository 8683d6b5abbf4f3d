// Messages of one sender do not overtake each other on the way to one receiver, along one lane: the sender's own
// delivery loop, or one worker.
module Ordering {
  import opened Sharding
  import opened RoomProtocol
  import opened RoomInvariants
  import opened Accounting
  import opened Lanes
  import opened QuietSteps

  predicate SameSender(log: seq<Bcast>, b1: nat, b2: nat) {
    b1 < |log| && b2 < |log| && log[b1].sender == log[b2].sender
  }

  /** Not two different workers. */
  predicate OneWay(x: Lane, y: Lane) { x.Via? && y.Via? ==> x == y }

  /** Except through different workers, broadcasts of one sender appear in the order they were started. */
  predicate InOrder(xs: seq<Item>, log: seq<Bcast>) {
    forall p, q :: 0 <= p < q < |xs| && xs[p].Live? && xs[q].Live? &&
                   OneWay(xs[p].lane, xs[q].lane) && SameSender(log, xs[p].b, xs[q].b) ==>
      xs[p].b < xs[q].b
  }

  predicate WorkerInOrder(wk: Worker, log: seq<Bcast>) {
    && (forall p, q :: 0 <= p < q < |wk.queue| && SameSender(log, wk.queue[p].message, wk.queue[q].message) ==>
          wk.queue[p].message < wk.queue[q].message)
    && (wk.hand.clients != [] ==>
         forall q :: 0 <= q < |wk.queue| && SameSender(log, wk.hand.message, wk.queue[q].message) ==>
          wk.hand.message < wk.queue[q].message)
  }

  /** What a client already has through worker w was started before what w still holds. */
  predicate BehindWorker(xs: seq<Item>, w: nat, wk: Worker, log: seq<Bcast>) {
    && (forall p, q :: 0 <= p < |xs| && xs[p].Live? && xs[p].lane == Via(w) &&
                       0 <= q < |wk.queue| && SameSender(log, xs[p].b, wk.queue[q].message) ==>
          xs[p].b < wk.queue[q].message)
    && (wk.hand.clients != [] ==>
         forall p :: 0 <= p < |xs| && xs[p].Live? && xs[p].lane == Via(w) &&
                     SameSender(log, xs[p].b, wk.hand.message) ==>
          xs[p].b <= wk.hand.message)
  }

  /** A loop's broadcast is its sender's latest. */
  predicate IsLatest(log: seq<Bcast>, i: Cid, b: nat) {
    forall x :: 0 <= x < |log| && log[x].sender == i ==> x <= b
  }

  predicate BroadcastNotAt(wk: Worker, b: nat) {
    && (wk.hand.clients != [] ==> wk.hand.message != b)
    && (forall q :: 0 <= q < |wk.queue| ==> wk.queue[q].message != b)
  }

  predicate BroadcastNotVia(xs: seq<Item>, b: nat, w: nat) {
    forall p :: 0 <= p < |xs| && xs[p].Live? && xs[p].lane == Via(w) ==> xs[p].b != b
  }

  /** Broadcast b is neither at worker w nor has it passed through it. */
  ghost predicate ClearOf(s: State, b: nat, w: nat)
    requires w < |s.workers|
  {
    BroadcastNotAt(s.workers[w], b) && forall c: nat :: c < |s.clients| ==> BroadcastNotVia(s.clients[c].hist, b, w)
  }

  /** Nothing of a loop's broadcast has reached the workers that its submit loop has not come to yet. */
  ghost predicate NotYetAt(s: State, i: Cid)
    requires At(s, i)
  {
    var p := s.clients[i].phase;
    Flight(p).1 != [] ==> forall w: nat :: NextShard(p) <= w < |s.workers| ==> ClearOf(s, Flight(p).0, w)
  }

  ghost predicate HistsOrdered(s: State) { forall c: nat :: c < |s.clients| ==> InOrder(s.clients[c].hist, s.log) }
  ghost predicate WorkersOrdered(s: State) { forall w: nat :: w < |s.workers| ==> WorkerInOrder(s.workers[w], s.log) }
  ghost predicate Behind(s: State) {
    forall c: nat, w: nat :: c < |s.clients| && w < |s.workers| ==>
        BehindWorker(s.clients[c].hist, w, s.workers[w], s.log)
  }
  ghost predicate LoopsLatest(s: State) {
    forall i: nat :: i < |s.clients| && Flight(s.clients[i].phase).1 != [] ==>
        IsLatest(s.log, i, Flight(s.clients[i].phase).0)
  }
  ghost predicate LoopsAhead(s: State) {
    forall i: nat :: i < |s.clients| ==> NotYetAt(s, i)
  }

  ghost predicate Ordered(s: State) {
    HistsOrdered(s) && WorkersOrdered(s) && Behind(s) && LoopsLatest(s) && LoopsAhead(s)
  }

  // ---- steps that move no broadcast ----

  /** The worker's queue is the same and it may have finished with some of the clients in its hands. */
  predicate SameLoad(x: Worker, y: Worker) {
    y.queue == x.queue && (y.hand.clients != [] ==> x.hand.clients != [] && y.hand.message == x.hand.message)
  }

  /** The loop is where it was, or further, or over. */
  predicate LoopAdvanced(x: Phase, y: Phase) {
    Flight(y).1 != [] ==> Flight(x).1 != [] && Flight(y).0 == Flight(x).0 && NextShard(y) >= NextShard(x)
  }

  ghost predicate Neutral(s: State, s': State) {
    && s'.log == s.log && |s.clients| <= |s'.clients|
    && (forall c: nat :: c < |s.clients| ==>
          && HistKept(s.clients[c].hist, s'.clients[c].hist)
          && LoopAdvanced(s.clients[c].phase, s'.clients[c].phase))
    && (forall c: nat :: |s.clients| <= c < |s'.clients| ==>
         s'.clients[c].hist == [] && Flight(s'.clients[c].phase).1 == [])
    && ((|s'.workers| == |s.workers| && forall w: nat :: w < |s.workers| ==> SameLoad(s.workers[w], s'.workers[w]))
        || (s.workers == [] && forall w: nat :: w < |s'.workers| ==>
             s'.workers[w].queue == [] && s'.workers[w].hand.clients == []))
  }

  lemma HistKeptInOrder(xs: seq<Item>, ys: seq<Item>, log: seq<Bcast>)
    requires HistKept(xs, ys) && InOrder(xs, log)
    ensures InOrder(ys, log)
  {
    assert forall p :: 0 <= p < |ys| && ys[p].Live? ==> p < |xs| && ys[p] == xs[p];
  }

  lemma NeutralBehind(xs: seq<Item>, ys: seq<Item>, w: nat, wk: Worker, wk': Worker, log: seq<Bcast>)
    requires HistKept(xs, ys) && SameLoad(wk, wk') && BehindWorker(xs, w, wk, log)
    ensures BehindWorker(ys, w, wk', log)
  {
    assert forall p :: 0 <= p < |ys| && ys[p].Live? ==> p < |xs| && ys[p] == xs[p];
  }

  lemma NeutralClear(s: State, s': State, b: nat, w: nat)
    requires Neutral(s, s') && w < |s.workers| == |s'.workers| && SameLoad(s.workers[w], s'.workers[w])
             && ClearOf(s, b, w)
    ensures ClearOf(s', b, w)
  {
    forall c: nat | c < |s'.clients| ensures BroadcastNotVia(s'.clients[c].hist, b, w) {
      if c < |s.clients| {
        var xs, ys := s.clients[c].hist, s'.clients[c].hist;
        assert BroadcastNotVia(xs, b, w) && HistKept(xs, ys);
        assert forall q :: 0 <= q < |ys| && ys[q].Live? ==> q < |xs| && ys[q] == xs[q];
      }
    }
  }

  ghost predicate LanesKnown(s: State) {
    forall c: nat, p: nat :: c < |s.clients| && p < |s.clients[c].hist| &&
                             s.clients[c].hist[p].Live? && s.clients[c].hist[p].lane.Via? ==>
      s.clients[c].hist[p].lane.worker < |s.workers|
  }

  lemma NeutralOrdered(s: State, s': State)
    requires Ordered(s) && LanesKnown(s) && Neutral(s, s')
    ensures Ordered(s') && LanesKnown(s')
  {
    forall c: nat | c < |s'.clients| ensures InOrder(s'.clients[c].hist, s'.log) {
      if c < |s.clients| { HistKeptInOrder(s.clients[c].hist, s'.clients[c].hist, s.log); }
    }
    forall c: nat, w: nat | c < |s'.clients| && w < |s'.workers|
      ensures BehindWorker(s'.clients[c].hist, w, s'.workers[w], s'.log)
    {
      if c < |s.clients| && w < |s.workers| {
        NeutralBehind(s.clients[c].hist, s'.clients[c].hist, w, s.workers[w], s'.workers[w], s.log);
      }
    }
    NeutralAheads(s, s');
    NeutralLanes(s, s');
  }

  lemma NeutralLanes(s: State, s': State)
    requires LanesKnown(s) && Neutral(s, s')
    ensures LanesKnown(s')
  {
    forall c: nat, p: nat | c < |s'.clients| && p < |s'.clients[c].hist| && s'.clients[c].hist[p].Live?
      ensures s'.clients[c].hist[p].lane.Via? ==> s'.clients[c].hist[p].lane.worker < |s'.workers|
    {
      assert HistKept(s.clients[c].hist, s'.clients[c].hist);
      assert p < |s.clients[c].hist| && s.clients[c].hist[p] == s'.clients[c].hist[..|s.clients[c].hist|][p];
    }
  }

  lemma NewWorkerClear(s: State, s': State, b: nat, w: nat)
    requires LanesKnown(s) && Neutral(s, s') && |s.workers| <= w < |s'.workers|
    ensures ClearOf(s', b, w)
  {
    forall c: nat | c < |s'.clients| ensures BroadcastNotVia(s'.clients[c].hist, b, w) {
      if c < |s.clients| {
        var xs, ys := s.clients[c].hist, s'.clients[c].hist;
        assert HistKept(xs, ys);
        assert forall q :: 0 <= q < |ys| && ys[q].Live? ==> q < |xs| && ys[q] == xs[q];
      }
    }
  }

  lemma NeutralAheads(s: State, s': State)
    requires Ordered(s) && LanesKnown(s) && Neutral(s, s')
    ensures LoopsAhead(s')
  {
    forall i: nat, w: nat | i < |s'.clients| && Flight(s'.clients[i].phase).1 != []
        && NextShard(s'.clients[i].phase) <= w < |s'.workers|
      ensures ClearOf(s', Flight(s'.clients[i].phase).0, w)
    {
      assert i < |s.clients| && NotYetAt(s, i);
      var b := Flight(s.clients[i].phase).0;
      if w < |s.workers| {
        NeutralClear(s, s', b, w);
      } else {
        NeutralLanes(s, s');
        NewWorkerClear(s, s', b, w);
      }
    }
  }

  lemma StandsIsNeutral(s: State, s': State)
    requires Stands(s, s')
    ensures Neutral(s, s')
  {}

  // ---- steps that move a broadcast ----

  lemma LongerLogKeepsHist(xs: seq<Item>, log: seq<Bcast>, e: Bcast)
    requires ItemsOK(xs, |log|) && InOrder(xs, log)
    ensures InOrder(xs, log + [e])
  {}

  lemma LongerLogKeepsWorker(wk: Worker, log: seq<Bcast>, e: Bcast, clients: nat)
    requires WorkerOK(wk, |log|, clients) && WorkerInOrder(wk, log)
    ensures WorkerInOrder(wk, log + [e]) && BroadcastNotAt(wk, |log|)
  {
    assert forall q :: 0 <= q < |wk.queue| ==> JobOK(wk.queue[q], |log|, clients);
  }

  lemma LongerLogKeepsBehind(xs: seq<Item>, w: nat, wk: Worker, log: seq<Bcast>, e: Bcast, clients: nat)
    requires ItemsOK(xs, |log|) && WorkerOK(wk, |log|, clients) && BehindWorker(xs, w, wk, log)
    ensures BehindWorker(xs, w, wk, log + [e]) && BroadcastNotVia(xs, |log|, w)
  {
    assert forall q :: 0 <= q < |wk.queue| ==> JobOK(wk.queue[q], |log|, clients);
  }

  /** Client c0 starts broadcast e. */
  ghost predicate Starts(s: State, s': State, c0: Cid, e: Bcast) {
    && s'.log == s.log + [e] && e.sender == c0 && s'.workers == s.workers && |s'.clients| == |s.clients|
         && c0 < |s.clients|
    && (forall c: nat :: c < |s.clients| ==> s'.clients[c].hist == s.clients[c].hist)
    && (forall c: nat :: c < |s.clients| && c != c0 ==> s'.clients[c].phase == s.clients[c].phase)
    && (Flight(s'.clients[c0].phase).1 != [] ==> Flight(s'.clients[c0].phase).0 == |s.log|)
  }

  lemma StartsOrdered(s: State, s': State, c0: Cid, e: Bcast)
    requires Shape(s) && Ordered(s) && LanesKnown(s) && Starts(s, s', c0, e)
    ensures Ordered(s') && LanesKnown(s')
  {
    forall c: nat | c < |s'.clients| ensures InOrder(s'.clients[c].hist, s'.log) {
      assert ClientOK(s, c, s.clients[c]);
      LongerLogKeepsHist(s.clients[c].hist, s.log, e);
    }
    forall w: nat | w < |s'.workers|
      ensures WorkerInOrder(s'.workers[w], s'.log)
              && BroadcastNotAt(s.workers[w], |s.log|)
    {
      LongerLogKeepsWorker(s.workers[w], s.log, e, |s.clients|);
    }
    forall c: nat, w: nat | c < |s'.clients| && w < |s'.workers|
      ensures BehindWorker(s'.clients[c].hist, w, s'.workers[w], s'.log)
              && BroadcastNotVia(s.clients[c].hist, |s.log|, w)
    {
      assert ClientOK(s, c, s.clients[c]);
      LongerLogKeepsBehind(s.clients[c].hist, w, s.workers[w], s.log, e, |s.clients|);
    }
    forall i: nat | i < |s'.clients| ensures NotYetAt(s', i) {
      assert NotYetAt(s, i);
      forall w: nat | w < |s'.workers| ensures ClearOf(s', |s.log|, w) {}
      assert forall w: nat, b: nat :: w < |s.workers| && ClearOf(s, b, w) ==> ClearOf(s', b, w);
    }
  }

  lemma SnapshotStarts(s: State, c0: Cid, order: seq<Cid>)
    requires Sane(s) && Enabled(s, Snapshot(c0, order))
    ensures Starts(s, Apply(s, Snapshot(c0, order)), c0, Bcast(c0, s.clients[c0].phase.body, order))
  {}

  lemma {:induction false} LiveIsNumbered(xs: seq<Item>, p: nat)
    requires p < |xs| && xs[p].Live?
    ensures xs[p].b in LiveNumbers(xs)
    decreases |xs|
  {
    var n := |xs| - 1;
    if p < n {
      LiveIsNumbered(xs[..n], p);
    }
  }

  // A broadcast that is still on its way to d is not in d's buffer.
  lemma PendingIsNotThere(s: State, d: Cid, b: nat)
    requires Reachable(s) && At(s, d) && AtSender(s, d, b) + AtWorkers(s, d, b) >= 1
    ensures forall p :: 0 <= p < |s.clients[d].hist| && s.clients[d].hist[p].Live? ==> s.clients[d].hist[p].b != b
  {
    ReachableBalance(s, d, b);
    assert Offered(s, d, b) <= 1 by {
      if b < |s.log| { assert BcastOK(s.log[b], |s.clients|); DistinctCount(s.log[b].snapshot, d); }
    }
    forall p | 0 <= p < |s.clients[d].hist| && s.clients[d].hist[p].Live? ensures s.clients[d].hist[p].b != b {
      LiveIsNumbered(s.clients[d].hist, p);
    }
  }

  function WithItem(s: State, d: Cid, x: Item): State
    requires At(s, d)
  {
    s.(clients := s.clients[d := s.clients[d].(hist := s.clients[d].hist + [x])])
  }

  /** x can go at the end of d's buffer. */
  ghost predicate CanFollow(s: State, d: Cid, x: Item)
    requires At(s, d) && x.Live?
  {
    forall p :: 0 <= p < |s.clients[d].hist| && s.clients[d].hist[p].Live? &&
                OneWay(s.clients[d].hist[p].lane, x.lane) && SameSender(s.log, s.clients[d].hist[p].b, x.b) ==>
      s.clients[d].hist[p].b < x.b
  }

  lemma FollowInOrder(s: State, d: Cid, x: Item)
    requires HistsOrdered(s) && At(s, d) && x.Live? && CanFollow(s, d, x)
    ensures HistsOrdered(WithItem(s, d, x))
  {
    assert InOrder(s.clients[d].hist, s.log);
    assert InOrder(WithItem(s, d, x).clients[d].hist, s.log);
  }

  lemma DirectFollows(s: State, d: Cid, b: nat)
    requires Ordered(s) && LanesKnown(s) && At(s, d) && CanFollow(s, d, Live(b, Direct))
    ensures Ordered(WithItem(s, d, Live(b, Direct))) && LanesKnown(WithItem(s, d, Live(b, Direct)))
  {
    var s' := WithItem(s, d, Live(b, Direct));
    FollowInOrder(s, d, Live(b, Direct));
    forall w: nat | w < |s.workers| ensures BehindWorker(s'.clients[d].hist, w, s.workers[w], s.log) {
      assert BehindWorker(s.clients[d].hist, w, s.workers[w], s.log);
    }
    forall i: nat | i < |s'.clients| ensures NotYetAt(s', i) {
      assert NotYetAt(s, i);
      forall w: nat, x: nat | w < |s.workers| && ClearOf(s, x, w) ensures ClearOf(s', x, w) {
        assert BroadcastNotVia(s.clients[d].hist, x, w);
      }
    }
  }

  lemma ViaFollows(s: State, d: Cid, w: nat)
    requires Ordered(s) && LanesKnown(s) && At(s, d) && w < |s.workers| && s.workers[w].hand.clients != []
    requires CanFollow(s, d, Live(s.workers[w].hand.message, Via(w)))
    ensures var x := Live(s.workers[w].hand.message, Via(w));
            Ordered(WithItem(s, d, x)) && LanesKnown(WithItem(s, d, x))
  {
    var b := s.workers[w].hand.message;
    var s' := WithItem(s, d, Live(b, Via(w)));
    FollowInOrder(s, d, Live(b, Via(w)));
    forall v: nat | v < |s.workers| ensures BehindWorker(s'.clients[d].hist, v, s.workers[v], s.log) {
      assert BehindWorker(s.clients[d].hist, v, s.workers[v], s.log) && WorkerInOrder(s.workers[v], s.log);
    }
    forall i: nat | i < |s'.clients| ensures NotYetAt(s', i) {
      assert NotYetAt(s, i);
      forall v: nat, x: nat | v < |s.workers| && ClearOf(s, x, v) ensures ClearOf(s', x, v) {
        assert BroadcastNotVia(s.clients[d].hist, x, v) && BroadcastNotAt(s.workers[v], x);
      }
    }
  }

  lemma LoopItemFollows(s: State, c: Cid)
    requires Reachable(s) && Shape(s) && Sane(s) && LoopsLatest(s) && Enabled(s, Deliver(c))
    ensures CanFollow(s, s.clients[c].phase.rest[0], Live(s.clients[c].phase.b, Direct))
  {
    var p := s.clients[c].phase;
    assert ClientOK(s, c, s.clients[c]);
    assert p.rest[0] in multiset(p.rest);
    PendingIsNotThere(s, p.rest[0], p.b);
    assert IsLatest(s.log, c, p.b);
  }

  lemma DeliverOrdered(s: State, c: Cid)
    requires Reachable(s) && Shape(s) && Sane(s) && Ordered(s) && LanesKnown(s) && Enabled(s, Deliver(c))
    ensures Ordered(Apply(s, Deliver(c))) && LanesKnown(Apply(s, Deliver(c)))
  {
    var s' := Apply(s, Deliver(c));
    var p := s.clients[c].phase;
    var d := p.rest[0];
    if !s.clients[d].phase.Gone? && |s.clients[d].hist| - s.clients[d].taken < SEND_BUFFER {
      LoopItemFollows(s, c);
      DirectFollows(s, d, p.b);
      DeliverRest(s, c);
      NeutralOrdered(WithItem(s, d, Live(p.b, Direct)), s');
    } else {
      DeliverNothing(s, c);
      NeutralOrdered(s, s');
    }
  }

  lemma DeliverRest(s: State, c: Cid)
    requires Sane(s) && Enabled(s, Deliver(c))
    requires var d := s.clients[s.clients[c].phase.rest[0]]; !d.phase.Gone? && |d.hist| - d.taken < SEND_BUFFER
    ensures Neutral(WithItem(s, s.clients[c].phase.rest[0], Live(s.clients[c].phase.b, Direct)), Apply(s, Deliver(c)))
  {}

  lemma DeliverNothing(s: State, c: Cid)
    requires Sane(s) && Enabled(s, Deliver(c))
    requires var d := s.clients[s.clients[c].phase.rest[0]]; d.phase.Gone? || |d.hist| - d.taken >= SEND_BUFFER
    ensures Neutral(s, Apply(s, Deliver(c)))
  {}

  lemma {:induction false} HandIsPending(ws: seq<Worker>, w: nat, d: Cid)
    requires w < |ws| && d in ws[w].hand.clients
    ensures WorkersCount(ws, d, ws[w].hand.message) >= 1
    decreases |ws|
  {
    if w > 0 { HandIsPending(ws[1..], w - 1, d); } else { assert d in multiset(ws[0].hand.clients); }
  }

  lemma HandItemFollows(s: State, w: nat)
    requires Reachable(s) && Shape(s) && Sane(s) && Behind(s) && Enabled(s, Send(w))
    ensures CanFollow(s, s.workers[w].hand.clients[0], Live(s.workers[w].hand.message, Via(w)))
  {
    var hand := s.workers[w].hand;
    HandIsPending(s.workers, w, hand.clients[0]);
    PendingIsNotThere(s, hand.clients[0], hand.message);
    var T := DirectBeforePooled(s);
    assert WorkerSplit(s.workers[w], T) && HistSplit(s.clients[hand.clients[0]].hist, T);
    assert BehindWorker(s.clients[hand.clients[0]].hist, w, s.workers[w], s.log);
  }

  lemma SendOrdered(s: State, w: nat)
    requires Reachable(s) && Shape(s) && Sane(s) && Ordered(s) && LanesKnown(s) && Enabled(s, Send(w))
    ensures Ordered(Apply(s, Send(w))) && LanesKnown(Apply(s, Send(w)))
  {
    var s' := Apply(s, Send(w));
    var hand := s.workers[w].hand;
    var d := hand.clients[0];
    if !s.clients[d].phase.Gone? && |s.clients[d].hist| - s.clients[d].taken < SEND_BUFFER {
      HandItemFollows(s, w);
      ViaFollows(s, d, w);
      NeutralOrdered(WithItem(s, d, Live(hand.message, Via(w))), s');
    } else {
      NeutralOrdered(s, s');
    }
  }

  lemma TakeOrdered(s: State, w: nat)
    requires Shape(s) && Sane(s) && Ordered(s) && LanesKnown(s) && Enabled(s, Take(w))
    ensures Ordered(Apply(s, Take(w))) && LanesKnown(Apply(s, Take(w)))
  {
    var s' := Apply(s, Take(w));
    assert WorkerInOrder(s.workers[w], s.log);
    forall c: nat, v: nat | c < |s.clients| && v < |s.workers|
      ensures BehindWorker(s'.clients[c].hist, v, s'.workers[v], s'.log)
    {
      assert BehindWorker(s.clients[c].hist, v, s.workers[v], s.log);
    }
    forall i: nat | i < |s'.clients| ensures NotYetAt(s', i) {
      assert NotYetAt(s, i);
      forall v: nat, x: nat | v < |s.workers| && ClearOf(s, x, v) ensures ClearOf(s', x, v) {
        assert BroadcastNotAt(s.workers[v], x);
      }
    }
  }

  function WithJob(s: State, w: nat, job: Job<nat, Cid>): State
    requires w < |s.workers|
  {
    s.(workers := s.workers[w := s.workers[w].(queue := s.workers[w].queue + [job])])
  }

  // The next shard of the latest broadcast of its sender can go at the end of a queue that has had none of it.
  lemma PushOrdered(s: State, w: nat, job: Job<nat, Cid>)
    requires Ordered(s) && LanesKnown(s) && w < |s.workers| && job.message < |s.log|
    requires IsLatest(s.log, s.log[job.message].sender, job.message) && ClearOf(s, job.message, w)
    requires forall i: nat :: i < |s.clients| && Flight(s.clients[i].phase).1 != [] ==>
               Flight(s.clients[i].phase).0 != job.message || NextShard(s.clients[i].phase) > w
    ensures Ordered(WithJob(s, w, job)) && LanesKnown(WithJob(s, w, job))
  {
    var s' := WithJob(s, w, job);
    assert WorkerInOrder(s.workers[w], s.log) && BroadcastNotAt(s.workers[w], job.message);
    forall c: nat, v: nat | c < |s.clients| && v < |s.workers|
      ensures BehindWorker(s'.clients[c].hist, v, s'.workers[v], s'.log)
    {
      assert BehindWorker(s.clients[c].hist, v, s.workers[v], s.log);
      assert BroadcastNotVia(s.clients[c].hist, job.message, w);
    }
    forall i: nat | i < |s'.clients| ensures NotYetAt(s', i) {
      assert NotYetAt(s, i);
      forall v: nat, x: nat | v < |s.workers| && ClearOf(s, x, v) && (v != w || x != job.message)
        ensures ClearOf(s', x, v)
      {
        assert BroadcastNotAt(s.workers[v], x);
      }
    }
  }

  lemma ShardCanBePushed(s: State, mid: State, c: Cid)
    requires Shape(s) && Sane(s) && Ordered(s) && Enabled(s, Enqueue(c)) && s.clients[c].phase.next < |s.workers|
    requires var p := s.clients[c].phase;
             mid == Goto(s, c, Submitting(p.b, p.rest[Min(p.chunk, |p.rest|)..], p.chunk, p.next + 1))
    ensures Neutral(s, mid)
    ensures var p := s.clients[c].phase;
            && p.b < |s.log| && IsLatest(s.log, s.log[p.b].sender, p.b) && ClearOf(mid, p.b, p.next)
            && forall i: nat :: i < |mid.clients| && Flight(mid.clients[i].phase).1 != [] ==>
                 Flight(mid.clients[i].phase).0 != p.b || NextShard(mid.clients[i].phase) > p.next
  {
    var p := s.clients[c].phase;
    assert ClientOK(s, c, s.clients[c]);
    assert IsLatest(s.log, c, p.b) && NotYetAt(s, c);
    assert ClearOf(s, p.b, p.next);
    NeutralClear(s, mid, p.b, p.next);
    forall i: nat | i < |mid.clients| && Flight(mid.clients[i].phase).1 != []
      ensures Flight(mid.clients[i].phase).0 != p.b || NextShard(mid.clients[i].phase) > p.next
    {
      assert ClientOK(s, i, s.clients[i]);
    }
  }

  lemma EnqueueOrdered(s: State, c: Cid)
    requires Shape(s) && Sane(s) && Ordered(s) && LanesKnown(s) && Enabled(s, Enqueue(c))
    ensures Ordered(Apply(s, Enqueue(c))) && LanesKnown(Apply(s, Enqueue(c)))
  {
    var s' := Apply(s, Enqueue(c));
    var p := s.clients[c].phase;
    assert ClientOK(s, c, s.clients[c]);
    ShardRoom(|p.rest|, |s.workers|, p.next, p.chunk);
    var wk := s.workers[p.next];
    if !wk.closed && |wk.queue| < WORKER_BUFFER {
      var n := Min(p.chunk, |p.rest|);
      var mid := Goto(s, c, Submitting(p.b, p.rest[n..], p.chunk, p.next + 1));
      ShardCanBePushed(s, mid, c);
      NeutralOrdered(s, mid);
      PushOrdered(mid, p.next, Job(p.b, p.rest[..n]));
      assert s' == WithJob(mid, p.next, Job(p.b, p.rest[..n]));
    } else {
      NeutralOrdered(s, s');
    }
  }

  lemma StillOrdered(s: State, a: Step)
    requires Shape(s) && Sane(s) && Ordered(s) && LanesKnown(s) && Enabled(s, a) && !MovesDelivery(a)
    ensures Ordered(Apply(s, a)) && LanesKnown(Apply(s, a))
  {
    QuietStands(s, a);
    StandsIsNeutral(s, Apply(s, a));
    NeutralOrdered(s, Apply(s, a));
  }

  lemma SnapshotOrdered(s: State, c: Cid, order: seq<Cid>)
    requires Shape(s) && Sane(s) && Ordered(s) && LanesKnown(s) && Enabled(s, Snapshot(c, order))
    ensures Ordered(Apply(s, Snapshot(c, order))) && LanesKnown(Apply(s, Snapshot(c, order)))
  {
    SnapshotStarts(s, c, order);
    StartsOrdered(s, Apply(s, Snapshot(c, order)), c, Bcast(c, s.clients[c].phase.body, order));
  }

  lemma StepOrdered(s: State, a: Step)
    requires Reachable(s) && Shape(s) && Sane(s) && Ordered(s) && LanesKnown(s) && Enabled(s, a)
    ensures Ordered(Apply(s, a)) && LanesKnown(Apply(s, a))
  {
    if MovesDelivery(a) { MoveOrdered(s, a); } else { StillOrdered(s, a); }
  }

  lemma MoveOrdered(s: State, a: Step)
    requires Reachable(s) && Shape(s) && Sane(s) && Ordered(s) && LanesKnown(s) && Enabled(s, a) && MovesDelivery(a)
    ensures Ordered(Apply(s, a)) && LanesKnown(Apply(s, a))
  {
    match a
    case Snapshot(c, order) => SnapshotOrdered(s, c, order);
    case Deliver(c) => DeliverOrdered(s, c);
    case Enqueue(c) => EnqueueOrdered(s, c);
    case Take(w) => TakeOrdered(s, w);
    case Send(w) => SendOrdered(s, w);
  }

  lemma {:induction false} RunOrdered(s: State, steps: seq<Step>)
    requires Reachable(s) && Ordered(s) && LanesKnown(s) && Legal(s, steps)
    ensures Ordered(Exec(s, steps)) && LanesKnown(Exec(s, steps))
    decreases |steps|
  {
    if steps != [] {
      EveryReachableStateIsWellFormed(s);
      StepOrdered(s, steps[0]);
      StepStaysReachable(s, steps[0]);
      RunOrdered(Apply(s, steps[0]), steps[1..]);
    }
  }

  // Per-sender order: two broadcasts by one sender can only have overtaken each other on the way to a client when both
  // came through workers, and through different ones.
  lemma SenderOrderIsKept(s: State, c: Cid, p: nat, q: nat)
    requires Reachable(s) && At(s, c) && p < q < |s.clients[c].hist| && s.clients[c].hist[p].Live?
             && s.clients[c].hist[q].Live?
    requires SameSender(s.log, s.clients[c].hist[p].b, s.clients[c].hist[q].b)
    ensures var x, y := s.clients[c].hist[p], s.clients[c].hist[q];
            x.b < y.b || (x.lane.Via? && y.lane.Via? && x.lane.worker != y.lane.worker)
  {
    ReachableOrdered(s);
    assert InOrder(s.clients[c].hist, s.log);
  }

  // So they arrive in order whenever the client has the same shard number in both snapshots.
  lemma SameShardKeepsSenderOrder(s: State, c: Cid, p: nat, q: nat)
    requires Reachable(s) && At(s, c) && p < q < |s.clients[c].hist| && s.clients[c].hist[p].Live?
             && s.clients[c].hist[q].Live?
    requires SameSender(s.log, s.clients[c].hist[p].b, s.clients[c].hist[q].b)
    ensures var x, y := s.log[s.clients[c].hist[p].b].snapshot, s.log[s.clients[c].hist[q].b].snapshot;
            && c in x && c in y
            && (ShardNumber(x, c) == ShardNumber(y, c) ==> s.clients[c].hist[p].b < s.clients[c].hist[q].b)
  {
    SenderOrderIsKept(s, c, p, q);
    LiveIsNumbered(s.clients[c].hist, p);
    LiveIsNumbered(s.clients[c].hist, q);
    NoEchoNoRepeat(s, c, s.clients[c].hist[p].b);
    NoEchoNoRepeat(s, c, s.clients[c].hist[q].b);
    if s.clients[c].hist[p].lane.Via? && s.clients[c].hist[q].lane.Via? {
      WorkerIsShardNumber(s, c, p);
      WorkerIsShardNumber(s, c, q);
    }
  }

  lemma ReachableOrdered(s: State)
    requires Reachable(s)
    ensures Ordered(s) && LanesKnown(s) && Shape(s)
  {
    var steps :| Legal(Init(s.limit), steps) && Exec(Init(s.limit), steps) == s;
    assert Legal(Init(s.limit), []) && Exec(Init(s.limit), []) == Init(s.limit);
    RunOrdered(Init(s.limit), steps);
    EveryReachableStateIsWellFormed(s);
  }

  // While the room has no pool every receiver sees each sender's broadcasts in the order they were started.
  lemma DirectRoomKeepsSenderOrder(s: State, c: Cid, p: nat, q: nat)
    requires Reachable(s) && !s.hasPool && At(s, c) && p < q < |s.clients[c].hist|
    requires s.clients[c].hist[p].Live? && s.clients[c].hist[q].Live?
             && SameSender(s.log, s.clients[c].hist[p].b, s.clients[c].hist[q].b)
    ensures s.clients[c].hist[p].b < s.clients[c].hist[q].b
  {
    ReachableOrdered(s);
    assert |s.workers| == 0;
    assert s.clients[c].hist[p].lane == Direct && s.clients[c].hist[q].lane == Direct;
    SenderOrderIsKept(s, c, p, q);
  }
}
