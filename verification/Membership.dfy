// Which broadcasts a client is offered, and what closing its channel can do.
module Membership {
  import opened Sharding
  import opened RoomProtocol
  import opened RoomInvariants
  import opened Accounting

  /** Client c is a member while broadcast number b starts. */
  predicate Present(s: State, c: Cid, b: nat)
    requires At(s, c)
  {
    var cl := s.clients[c];
    !cl.phase.Fresh? && cl.addedAt <= b && (cl.phase.Gone? ==> b < cl.removedAt)
  }

  predicate Windowed(s: State, c: Cid, b: nat)
    requires At(s, c) && b < |s.log|
  {
    c in s.log[b].snapshot <==> s.log[b].sender != c && Present(s, c, b)
  }

  ghost predicate Windows(s: State) {
    && (forall c: nat :: c < |s.clients| ==> s.clients[c].addedAt <= |s.log| && s.clients[c].removedAt <= |s.log|)
    && (forall c: nat, b: nat :: c < |s.clients| && b < |s.log| ==> Windowed(s, c, b))
  }

  /** The membership history of every old client is unchanged, and no new client is in a snapshot. */
  ghost predicate SameMembership(s: State, s': State) {
    && s'.log == s.log && |s.clients| <= |s'.clients|
    && (forall c: nat :: c < |s.clients| ==>
          && s'.clients[c].roomID == s.clients[c].roomID
          && s'.clients[c].addedAt == s.clients[c].addedAt && s'.clients[c].removedAt == s.clients[c].removedAt
          && s'.clients[c].phase.Fresh? == s.clients[c].phase.Fresh?
               && s'.clients[c].phase.Gone? == s.clients[c].phase.Gone?)
    && (forall c: nat :: |s.clients| <= c < |s'.clients| ==> s'.clients[c] == NewClient(s'.clients[c].roomID))
  }

  predicate MembershipStep(a: Step) { a.AddLock? || a.Remove? || a.Snapshot? }

  predicate JoinStep(a: Step) { a.Connect? || a.AddCheck? || a.Activate? || a.Query? || a.Replay? || a.Start? }
  predicate LoopStep(a: Step) { a.Enqueue? || a.Finish? }
  predicate MoveStep(a: Step) { a.Send? || a.Take? || a.Exit? || a.ShutStart? || a.ShutClose? || a.ShutReturn? }

  lemma JoinKeepsMembership(s: State, a: Step)
    requires Sane(s) && Enabled(s, a) && JoinStep(a)
    ensures SameMembership(s, Apply(s, a))
  {}

  lemma MoveKeepsMembership(s: State, a: Step)
    requires Sane(s) && Enabled(s, a) && MoveStep(a)
    ensures SameMembership(s, Apply(s, a))
  {}

  lemma LoopKeepsMembership(s: State, a: Step)
    requires Sane(s) && Enabled(s, a) && LoopStep(a)
    ensures SameMembership(s, Apply(s, a))
  {}

  lemma DeliverKeepsMembership(s: State, c0: Cid)
    requires Sane(s) && Enabled(s, Deliver(c0))
    ensures SameMembership(s, Apply(s, Deliver(c0)))
  {
    var s' := Apply(s, Deliver(c0));
    forall c: nat | c < |s.clients|
      ensures s'.clients[c].roomID == s.clients[c].roomID
      ensures s'.clients[c].addedAt == s.clients[c].addedAt && s'.clients[c].removedAt == s.clients[c].removedAt
      ensures s'.clients[c].phase.Fresh? == s.clients[c].phase.Fresh?
              && s'.clients[c].phase.Gone? == s.clients[c].phase.Gone?
    {}
  }

  lemma FrameKeepsMembership(s: State, a: Step)
    requires Sane(s) && Enabled(s, a) && !MembershipStep(a) && !JoinStep(a) && !MoveStep(a) && !LoopStep(a)
             && !a.Deliver?
    ensures SameMembership(s, Apply(s, a))
  {}

  lemma OtherStepsKeepMembership(s: State, a: Step)
    requires Sane(s) && Enabled(s, a) && !MembershipStep(a)
    ensures SameMembership(s, Apply(s, a))
  {
    if JoinStep(a) { JoinKeepsMembership(s, a); }
    else if a.Deliver? { DeliverKeepsMembership(s, a.c); }
    else if LoopStep(a) { LoopKeepsMembership(s, a); }
    else if MoveStep(a) { MoveKeepsMembership(s, a); }
    else { FrameKeepsMembership(s, a); }
  }

  lemma SameMembershipWindows(s: State, s': State)
    requires Shape(s) && Windows(s) && SameMembership(s, s')
    ensures Windows(s')
  {
    forall c: nat, b: nat | c < |s'.clients| && b < |s'.log| ensures Windowed(s', c, b) {
      assert BcastOK(s.log[b], |s.clients|);
      if c < |s.clients| { assert Windowed(s, c, b); }
    }
  }

  lemma MemberStepWindows(s: State, a: Step)
    requires Shape(s) && Sane(s) && Windows(s) && Enabled(s, a) && (a.AddLock? || a.Remove?)
    ensures Windows(Apply(s, a))
  {
    var s' := Apply(s, a);
    forall c: nat, b: nat | c < |s'.clients| && b < |s'.log| ensures Windowed(s', c, b) {
      assert Windowed(s, c, b);
    }
  }

  lemma SnapshotWindows(s: State, c0: Cid, order: seq<Cid>)
    requires Shape(s) && Sane(s) && Windows(s) && Enabled(s, Snapshot(c0, order))
    ensures Windows(Apply(s, Snapshot(c0, order)))
  {
    var s' := Apply(s, Snapshot(c0, order));
    SnapshotFacts(s, c0, order);
    forall c: nat, b: nat | c < |s'.clients| && b < |s'.log| ensures Windowed(s', c, b) {
      assert ClientOK(s, c, s.clients[c]);
      if b < |s.log| { assert Windowed(s, c, b); }
    }
  }

  lemma StepWindows(s: State, a: Step)
    requires Shape(s) && Sane(s) && Windows(s) && Enabled(s, a)
    ensures Windows(Apply(s, a))
  {
    if a.Snapshot? { SnapshotWindows(s, a.c, a.order); }
    else if MembershipStep(a) { MemberStepWindows(s, a); }
    else { OtherStepsKeepMembership(s, a); SameMembershipWindows(s, Apply(s, a)); }
  }

  lemma {:induction false} RunWindows(s: State, steps: seq<Step>)
    requires Shape(s) && Windows(s) && Legal(s, steps)
    ensures Windows(Exec(s, steps))
    decreases |steps|
  {
    if steps != [] {
      StepKeepsShape(s, steps[0]);
      StepWindows(s, steps[0]);
      RunWindows(Apply(s, steps[0]), steps[1..]);
    }
  }

  // A broadcast is offered to exactly the other clients that were added before it started and not removed by then;
  // in particular no snapshot taken after Remove holds the client.
  lemma OfferedExactlyToMembers(s: State, c: Cid, b: nat)
    requires Reachable(s) && At(s, c) && b < |s.log|
    ensures c in s.log[b].snapshot <==> s.log[b].sender != c && Present(s, c, b)
    ensures Windows(s)
  {
    var steps :| Legal(Init(s.limit), steps) && Exec(Init(s.limit), steps) == s;
    RunWindows(Init(s.limit), steps);
    assert Windowed(s, c, b);
  }

  /** Deliveries of b to c that a loop or a worker has still to make. */
  function Pending(s: State, c: Cid, b: nat): nat { AtSender(s, c, b) + AtWorkers(s, c, b) }

  /** Deliveries of b to c that will never be made again: done, dropped or abandoned. */
  function Settled(s: State, c: Cid, b: nat): nat {
    Accepted(s, c, b) + Refused(s, c, b) + ShardDropped(s, c, b) + GivenUp(s, c, b)
  }

  lemma AcceptGrows(cl: Client, x: Item, b: nat)
    requires cl.taken <= |cl.hist|
    ensures CountLive(Accept(cl, x).hist, b) >= CountLive(cl.hist, b)
    ensures CountLive(Accept(cl, x).dropped, b) >= CountLive(cl.dropped, b)
  {
    CountAppend(cl.hist, x, b);
    CountAppend(cl.dropped, x, b);
  }

  /** Item x may have been offered to client d; no other buffer changed. */
  ghost predicate BuffersOnlyGain(s: State, s': State, d: Cid, x: Item) {
    SameBuffers(s, s') || BuffersGain(s, s', d, x)
  }

  lemma GainSettles(s: State, s': State, d: Cid, x: Item, c: Cid, b: nat)
    requires BuffersOnlyGain(s, s', d, x)
    ensures Accepted(s', c, b) + Refused(s', c, b) >= Accepted(s, c, b) + Refused(s, c, b)
  {
    if !SameBuffers(s, s') { AcceptGrows(s.clients[d], x, b); }
  }

  lemma OfferSettles(s: State, a: Step, c: Cid, b: nat)
    requires Shape(s) && Sane(s) && Enabled(s, a) && (a.SelfError? || a.Replay? || a.Send?)
    ensures Settled(Apply(s, a), c, b) >= Settled(s, c, b)
  {
    var s' := Apply(s, a);
    match a
    case SelfError(c0) => GainSettles(s, s', c0, Notice, c, b);
    case Replay(c0, ok) => GainSettles(s, s', c0, Past(s.clients[c0].phase.rest[0]), c, b);
    case Send(w) =>
      var hand := s.workers[w].hand;
      GainSettles(s, s', hand.clients[0], Live(hand.message, Via(w)), c, b);
  }

  lemma DeliverSettles(s: State, c0: Cid, c: Cid, b: nat)
    requires Shape(s) && Sane(s) && Enabled(s, Deliver(c0))
    ensures Settled(Apply(s, Deliver(c0)), c, b) >= Settled(s, c, b)
  {
    var p := s.clients[c0].phase;
    GainSettles(s, Apply(s, Deliver(c0)), p.rest[0], Live(p.b, Direct), c, b);
    JobsAppend(s.lost, Job(p.b, p.rest), c, b);
  }

  lemma EnqueueSettles(s: State, c0: Cid, c: Cid, b: nat)
    requires Shape(s) && Sane(s) && Enabled(s, Enqueue(c0))
    ensures Settled(Apply(s, Enqueue(c0)), c, b) >= Settled(s, c, b)
  {
    assert SameBuffers(s, Apply(s, Enqueue(c0)));
    var p := s.clients[c0].phase;
    JobsAppend(s.lost, Job(p.b, p.rest), c, b);
    JobsAppend(s.shardDrops, Job(p.b, p.rest[..Min(p.chunk, |p.rest|)]), c, b);
  }

  lemma PoolSettles(s: State, a: Step, c: Cid, b: nat)
    requires Shape(s) && Sane(s) && Enabled(s, a) && (a.Activate? || a.Exit? || a.ShutClose? || a.Snapshot? || a.Take?)
    ensures Settled(Apply(s, a), c, b) >= Settled(s, c, b)
  {
    assert SameBuffers(s, Apply(s, a));
  }

  // What is settled stays settled.
  lemma StepSettles(s: State, a: Step, c: Cid, b: nat)
    requires Shape(s) && Sane(s) && Enabled(s, a)
    ensures Settled(Apply(s, a), c, b) >= Settled(s, c, b)
  {
    if QuietStep(a) {
      QuietTraffic(s, a);
      var s' := Apply(s, a);
      assert SameTraffic(s, s');
    } else {
      match a
      case SelfError(_) | Replay(_, _) | Send(_) => OfferSettles(s, a, c, b);
      case Deliver(c0) => DeliverSettles(s, c0, c, b);
      case Enqueue(c0) => EnqueueSettles(s, c0, c, b);
      case _ => PoolSettles(s, a, c, b);
    }
  }

  lemma {:induction false} WorkersAtLeast(ws: seq<Worker>, w: nat, c: Cid, b: nat)
    requires w < |ws|
    ensures WorkersCount(ws, c, b) >= WorkerCount(ws[w], c, b)
    decreases |ws|
  {
    if w > 0 { WorkersAtLeast(ws[1..], w - 1, c, b); }
  }

  // The delivery that a loop or a worker makes next is pending.
  lemma LoopHeadPending(s: State, c0: Cid)
    requires Shape(s) && Sane(s) && Enabled(s, Deliver(c0))
    ensures Pending(s, s.clients[c0].phase.rest[0], s.clients[c0].phase.b) >= 1
  {
    assert ClientOK(s, c0, s.clients[c0]);
    var p := s.clients[c0].phase;
    assert p.rest[0] in multiset(p.rest);
  }

  lemma HandHeadPending(s: State, w: nat)
    requires Sane(s) && Enabled(s, Send(w))
    ensures Pending(s, s.workers[w].hand.clients[0], s.workers[w].hand.message) >= 1
  {
    var hand := s.workers[w].hand;
    assert hand.clients[0] in multiset(hand.clients);
    WorkersAtLeast(s.workers, w, hand.clients[0], hand.message);
  }

  lemma OfferedStays(s: State, a: Step, c: Cid, b: nat)
    requires Shape(s) && Sane(s) && Enabled(s, a) && At(s, c)
    requires !InRoom(s.clients[c].phase) || a == Remove(c)
    ensures Offered(Apply(s, a), c, b) == Offered(s, c, b)
  {
    if a.Snapshot? {
      if b == |s.log| {
        SnapshotFacts(s, a.c, a.order);
        assert ClientOK(s, c, s.clients[c]);
        assert multiset(a.order)[c] == 0;
      }
    } else {
      assert Apply(s, a).log == s.log;
    }
  }

  // Pending deliveries of a removed client only ever go down.
  lemma PendingOnlyFalls(s: State, a: Step, c: Cid, b: nat)
    requires Reachable(s) && Sane(s) && Enabled(s, a) && At(s, c)
    requires s.clients[c].phase.Gone? || a == Remove(c)
    ensures Pending(Apply(s, a), c, b) <= Pending(s, c, b)
  {
    StepStaysReachable(s, a);
    ReachableBalance(s, c, b);
    ReachableBalance(Apply(s, a), c, b);
    StepSettles(s, a, c, b);
    OfferedStays(s, a, c, b);
  }

  /** A send of broadcast b on the closed channel of client d, whose snapshot was taken while d was a member. */
  ghost predicate Stale(s: State, send: (Cid, nat)) {
    At(s, send.0) && s.clients[send.0].phase.Gone? && send.1 < |s.log| && send.0 in s.log[send.1].snapshot
  }

  ghost predicate BadSendsAreStale(s: State) {
    forall i :: 0 <= i < |s.badSends| ==> Stale(s, s.badSends[i])
  }

  // A delivery still under way was offered.
  lemma PendingWasOffered(s: State, c: Cid, b: nat)
    requires Reachable(s) && Pending(s, c, b) > 0
    ensures b < |s.log| && c in s.log[b].snapshot
  {
    ReachableBalance(s, c, b);
  }

  lemma NewBadSendIsStale(s: State, a: Step)
    requires Reachable(s) && Sane(s) && Enabled(s, a)
    ensures Apply(s, a).badSends == s.badSends
         || (|Apply(s, a).badSends| == |s.badSends| + 1 && Apply(s, a).badSends[..|s.badSends|] == s.badSends
             && Stale(s, Apply(s, a).badSends[|s.badSends|]))
  {
    EveryReachableStateIsWellFormed(s);
    if a.Deliver? { DeliverIsStale(s, a.c); } else if a.Send? { SendIsStale(s, a.w); } else { NoOtherBadSend(s, a); }
  }

  lemma NoOtherBadSend(s: State, a: Step)
    requires Sane(s) && Enabled(s, a) && !a.Deliver? && !a.Send?
    ensures Apply(s, a).badSends == s.badSends
  {}

  lemma DeliverIsStale(s: State, c: Cid)
    requires Reachable(s) && Shape(s) && Sane(s) && Enabled(s, Deliver(c))
    ensures var s', d := Apply(s, Deliver(c)), s.clients[c].phase.rest[0];
            s'.badSends == s.badSends
                || (s'.badSends == s.badSends + [(d, s.clients[c].phase.b)] && Stale(s, (d, s.clients[c].phase.b)))
  {
    LoopHeadPending(s, c);
    PendingWasOffered(s, s.clients[c].phase.rest[0], s.clients[c].phase.b);
  }

  lemma SendIsStale(s: State, w: nat)
    requires Reachable(s) && Shape(s) && Sane(s) && Enabled(s, Send(w))
    ensures var s', d := Apply(s, Send(w)), s.workers[w].hand.clients[0];
            s'.badSends == s.badSends
            || (s'.badSends == s.badSends + [(d, s.workers[w].hand.message)]
                 && Stale(s, (d, s.workers[w].hand.message)))
  {
    HandHeadPending(s, w);
    PendingWasOffered(s, s.workers[w].hand.clients[0], s.workers[w].hand.message);
  }

  lemma StepKeepsStale(s: State, a: Step)
    requires Reachable(s) && Sane(s) && BadSendsAreStale(s) && Enabled(s, a)
    ensures BadSendsAreStale(Apply(s, a))
  {
    EveryReachableStateIsWellFormed(s);
    NewBadSendIsStale(s, a);
    StaleStays(s, a);
    var s' := Apply(s, a);
    forall i | 0 <= i < |s'.badSends| ensures Stale(s', s'.badSends[i]) {
      assert i < |s.badSends| ==> s'.badSends[i] == s'.badSends[..|s.badSends|][i];
      assert Stale(s, s'.badSends[i]);
    }
  }

  lemma StaleStays(s: State, a: Step)
    requires Shape(s) && Sane(s) && Enabled(s, a)
    ensures s.log <= Apply(s, a).log && |s.clients| <= |Apply(s, a).clients|
    ensures forall c: nat :: c < |s.clients| && s.clients[c].phase.Gone? ==> Apply(s, a).clients[c].phase.Gone?
  {
    if !MembershipStep(a) { OtherStepsKeepMembership(s, a); }
  }

  lemma {:induction false} RunKeepsStale(s: State, steps: seq<Step>)
    requires Reachable(s) && BadSendsAreStale(s) && Legal(s, steps)
    ensures BadSendsAreStale(Exec(s, steps))
    decreases |steps|
  {
    if steps != [] {
      StepKeepsStale(s, steps[0]);
      StepStaysReachable(s, steps[0]);
      RunKeepsStale(Apply(s, steps[0]), steps[1..]);
    }
  }

  // Any delivery to a closed channel comes from a broadcast that started before that client's Remove.
  lemma ClosedSendsComeFromOlderSnapshots(s: State, i: nat)
    requires Reachable(s) && i < |s.badSends|
    ensures var (d, b) := s.badSends[i]; At(s, d) && s.clients[d].phase.Gone? && b < s.clients[d].removedAt <= |s.log|
  {
    var steps :| Legal(Init(s.limit), steps) && Exec(Init(s.limit), steps) == s;
    InitReachable(s.limit);
    RunKeepsStale(Init(s.limit), steps);
    var (d, b) := s.badSends[i];
    OfferedExactlyToMembers(s, d, b);
  }

  lemma InitReachable(limit: nat)
    ensures Reachable(Init(limit))
  {
    assert Legal(Init(limit), []) && Exec(Init(limit), []) == Init(limit);
  }
}
