// A client's read loop in the protocol: with nothing in between, its steps do what the trace of its frames says.
module FrameSteps {
  import opened Sharding
  import opened RoomProtocol
  import opened RoomInvariants
  import opened RemovalSafety
  import opened Uninterrupted
  import Messages
  import FramePipeline

  /** A step of client c's own read loop. */
  predicate OwnStep(a: Step, c: Cid) {
    match a
    case SelfError(d) => d == c
    case TypingFrame(d) => d == c
    case Persist(d, _) => d == c
    case Skip(d) => d == c
    case Snapshot(d, _) => d == c
    case Deliver(d) => d == c
    case Enqueue(d) => d == c
    case Finish(d) => d == c
    case _ => false
  }

  predicate OwnSteps(steps: seq<Step>, c: Cid) { forall k :: 0 <= k < |steps| ==> OwnStep(steps[k], c) }

  predicate LoopStep(a: Step, c: Cid) { a == Deliver(c) || a == Enqueue(c) || a == Finish(c) }

  /** The same members, broadcasts, rows and pool, and the same number of clients. */
  predicate SameRoom(s: State, s': State) {
    && s'.members == s.members && s'.log == s.log && s'.store == s.store && s'.hasPool == s.hasPool
    && s'.limit == s.limit && |s'.clients| == |s.clients| && s'.shut == s.shut
  }

  /** Client c waits for a frame, and the pool, if any, is open. */
  ghost predicate Serves(s: State, c: Cid) {
    Reachable(s) && !s.crashed && At(s, c) && s.clients[c].phase == Idle && NoneClosed(s.workers)
  }

  /** What is in d's send buffer. */
  function Held(s: State, d: Cid): seq<Item>
    requires At(s, d)
  {
    if s.clients[d].taken <= |s.clients[d].hist| then Buffer(s.clients[d]) else []
  }

  lemma LoopStepKeepsRoom(s: State, a: Step, c: Cid)
    requires Sane(s) && Enabled(s, a) && LoopStep(a, c)
    ensures SameRoom(s, Apply(s, a))
  {
    if a.Deliver? { DeliverStepKeepsRoom(s, c); } else { SubmitStepKeepsRoom(s, a, c); }
  }

  lemma DeliverStepKeepsRoom(s: State, c: Cid)
    requires Sane(s) && Enabled(s, Deliver(c))
    ensures SameRoom(s, Apply(s, Deliver(c)))
  {}

  lemma SubmitStepKeepsRoom(s: State, a: Step, c: Cid)
    requires Sane(s) && Enabled(s, a) && (a == Enqueue(c) || a == Finish(c))
    ensures SameRoom(s, Apply(s, a))
  {}

  lemma {:induction false} LoopKeepsRoom(s: State, steps: seq<Step>, c: Cid)
    requires Legal(s, steps) && forall k :: 0 <= k < |steps| ==> LoopStep(steps[k], c)
    ensures SameRoom(s, Exec(s, steps))
    decreases |steps|
  {
    if steps != [] {
      LoopStepKeepsRoom(s, steps[0], c);
      LoopKeepsRoom(Apply(s, steps[0]), steps[1..], c);
    }
  }

  /** Nobody's buffer and no worker's channel state changed. */
  ghost predicate SameBuffers(s: State, s': State) {
    && |s'.clients| == |s.clients| && s'.crashed == s.crashed
    && (forall d: nat :: d < |s.clients| ==>
          s'.clients[d].hist == s.clients[d].hist && s'.clients[d].taken == s.clients[d].taken)
    && |s'.workers| == |s.workers| && forall w: nat :: w < |s.workers| ==> s'.workers[w].closed == s.workers[w].closed
  }

  lemma SubmitStepKeepsBuffers(s: State, a: Step, c: Cid)
    requires Sane(s) && Enabled(s, a) && (a == Enqueue(c) || a == Finish(c))
    ensures SameBuffers(s, Apply(s, a))
  {
    if a.Enqueue? { EnqueueKeepsBuffers(s, c); }
  }

  lemma EnqueueKeepsBuffers(s: State, c: Cid)
    requires Sane(s) && Enabled(s, Enqueue(c))
    ensures SameBuffers(s, Apply(s, Enqueue(c)))
  {}

  lemma {:induction false} SubmitKeepsBuffers(s: State, steps: seq<Step>, c: Cid)
    requires Legal(s, steps) && forall k :: 0 <= k < |steps| ==> steps[k] == Enqueue(c) || steps[k] == Finish(c)
    ensures SameBuffers(s, Exec(s, steps))
    decreases |steps|
  {
    if steps != [] {
      SubmitStepKeepsBuffers(s, steps[0], c);
      SubmitKeepsBuffers(Apply(s, steps[0]), steps[1..], c);
    }
  }

  lemma DeliverStepKeepsPool(s: State, c: Cid)
    requires Sane(s) && Enabled(s, Deliver(c))
    ensures Apply(s, Deliver(c)).workers == s.workers
  {}

  lemma {:induction false} DeliverKeepsPool(s: State, steps: seq<Step>, c: Cid)
    requires Legal(s, steps) && forall k :: 0 <= k < |steps| ==> steps[k] == Deliver(c)
    ensures Exec(s, steps).workers == s.workers
    decreases |steps|
  {
    if steps != [] {
      DeliverStepKeepsPool(s, c);
      DeliverKeepsPool(Apply(s, steps[0]), steps[1..], c);
    }
  }

  // ---- one broadcast ----

  /** Broadcast b went out: offered to everybody in order, directly or as a job of the pool. */
  ghost predicate WentOut(s: State, s': State, c: Cid, b: nat, order: seq<Cid>) {
    && s'.members == s.members && s'.hasPool == s.hasPool && |s'.clients| == |s.clients| && !s'.crashed
    && s'.shut == s.shut
    && |s'.workers| == |s.workers| && NoneClosed(s'.workers) && At(s', c) && s'.clients[c].phase == Idle
    && (forall d: nat :: d < |s.clients| ==>
          Held(s', d) == if !s.hasPool && d in order
                         then Offer(Held(s, d), Live(b, Direct), SEND_BUFFER) else Held(s, d))
    && (if s.hasPool then |s.workers| > 0 && Queues(s') == SubmitAll(Queues(s), Job(b, order))
        else s'.workers == s.workers)
  }

  /** The log and the store after client c's message with this body was broadcast to order. */
  ghost predicate Recorded(s: State, s': State, c: Cid, body: Body, order: seq<Cid>) {
    && s'.log == s.log + [Bcast(c, body, order)]
    && s'.store == if body.Chat? && body.row < |s.store|
                   then s.store[body.row := s.store[body.row].(fate := SentAs(|s.log|))] else s.store
  }

  lemma SnapshotRecords(s: State, c: Cid, order: seq<Cid>)
    requires Shape(s) && Sane(s) && Enabled(s, Snapshot(c, order))
    ensures var s1 := Apply(s, Snapshot(c, order));
            && Recorded(s, s1, c, s.clients[c].phase.body, order)
            && s1.members == s.members && s1.hasPool == s.hasPool && s1.workers == s.workers && s1.crashed == s.crashed
            && s1.shut == s.shut && |s1.clients| == |s.clients|
            && (forall d: nat :: d < |s.clients| ==> Held(s1, d) == Held(s, d))
            && (!s.hasPool ==> s1.clients[c].phase == Delivering(|s.log|, order))
            && (forall d: nat :: d < |s.clients| && d != c ==> s1.clients[d].phase == s.clients[d].phase)
  {
    assert ClientOK(s, c, s.clients[c]);
  }

  // A held message goes out through the pool.
  lemma PooledGoesOut(s: State, c: Cid, order: seq<Cid>) returns (steps: seq<Step>)
    requires Reachable(s) && Enabled(s, Snapshot(c, order)) && s.hasPool && NoneClosed(s.workers)
    ensures Legal(s, steps) && OwnSteps(steps, c)
    ensures WentOut(s, Exec(s, steps), c, |s.log|, order)
            && Recorded(s, Exec(s, steps), c, s.clients[c].phase.body, order)
  {
    EveryReachableStateIsWellFormed(s);
    steps := PooledBroadcastIsSubmit(s, c, order);
    var s1 := Apply(s, Snapshot(c, order));
    SnapshotRecords(s, c, order);
    SubmitLoopKeeps(s, steps, s1, c);
  }

  lemma SubmitLoopKeeps(s: State, steps: seq<Step>, s1: State, c: Cid)
    requires Legal(s, steps) && steps != [] && s1 == Apply(s, steps[0])
             && forall k :: 0 < k < |steps| ==> steps[k] == Enqueue(c) || steps[k] == Finish(c)
    ensures SameRoom(s1, Exec(s, steps)) && SameBuffers(s1, Exec(s, steps))
  {
    LoopKeepsRoom(s1, steps[1..], c);
    SubmitKeepsBuffers(s1, steps[1..], c);
  }

  // A held message goes out directly.
  lemma DirectGoesOut(s: State, c: Cid, order: seq<Cid>) returns (steps: seq<Step>)
    requires Reachable(s) && Enabled(s, Snapshot(c, order)) && !s.hasPool
    ensures Legal(s, steps) && OwnSteps(steps, c)
    ensures WentOut(s, Exec(s, steps), c, |s.log|, order)
            && Recorded(s, Exec(s, steps), c, s.clients[c].phase.body, order)
  {
    EveryReachableStateIsWellFormed(s);
    StepKeepsShape(s, Snapshot(c, order));
    NobodyGone(s, c, order);
    var s1 := DirectSnapshot(s, c, order);
    var run := DeliverAndFinish(s1, c);
    ExecOne(s, Snapshot(c, order), run);
    steps := [Snapshot(c, order)] + run;
  }

  lemma DirectSnapshot(s: State, c: Cid, order: seq<Cid>) returns (s1: State)
    requires Shape(s) && Sane(s) && Enabled(s, Snapshot(c, order)) && !s.hasPool
    ensures s1 == Apply(s, Snapshot(c, order)) && Recorded(s, s1, c, s.clients[c].phase.body, order)
    ensures s1.members == s.members && !s1.hasPool && s1.workers == s.workers == [] && s1.shut == s.shut
    ensures !s1.crashed && |s1.clients| == |s.clients| && s1.clients[c].phase == Delivering(|s.log|, order)
    ensures forall d: nat :: d < |s.clients| ==> Held(s1, d) == Held(s, d)
  {
    SnapshotRecords(s, c, order);
    s1 := Apply(s, Snapshot(c, order));
  }

  // A snapshot holds no client that is gone.
  lemma NobodyGone(s: State, c: Cid, order: seq<Cid>)
    requires Shape(s) && Sane(s) && Enabled(s, Snapshot(c, order))
    ensures forall d <- order :: !IsGone(s, d)
    ensures forall d <- order :: !IsGone(Apply(s, Snapshot(c, order)), d)
  {
    SnapshotFacts(s, c, order);
    forall d | d in order ensures !IsGone(s, d) && !IsGone(Apply(s, Snapshot(c, order)), d) {
      assert ClientOK(s, d, s.clients[d]);
    }
  }

  lemma DeliverAndFinish(s: State, c: Cid) returns (steps: seq<Step>)
    requires Shape(s) && !s.crashed && At(s, c) && s.clients[c].phase.Delivering?
    requires forall d <- s.clients[c].phase.rest :: !IsGone(s, d)
    ensures Legal(s, steps) && OwnSteps(steps, c)
    ensures var s', p := Exec(s, steps), s.clients[c].phase;
            && SameRoom(s, s') && !s'.crashed && s'.clients[c].phase == Idle && s'.workers == s.workers
            && forall d: nat :: d < |s.clients| ==>
                 Held(s', d) == if d in p.rest then Offer(Held(s, d), Live(p.b, Direct), SEND_BUFFER) else Held(s, d)
  {
    var run := DirectRunOffersToAll(s, c);
    LoopKeepsRoom(s, run, c);
    DeliverKeepsPool(s, run, c);
    HeldAfter(s, Exec(s, run), c);
    steps := ThenFinish(s, run, c);
  }

  lemma ThenFinish(s: State, run: seq<Step>, c: Cid) returns (steps: seq<Step>)
    requires Shape(s) && Legal(s, run) && At(s, c) && forall k :: 0 <= k < |run| ==> run[k] == Deliver(c)
    requires Enabled(Exec(s, run), Finish(c))
    ensures Legal(s, steps) && OwnSteps(steps, c)
    ensures var s1, s' := Exec(s, run), Exec(s, steps);
            && SameRoom(s1, s') && s'.crashed == s1.crashed && At(s', c) && s'.clients[c].phase == Idle
            && s'.workers == s1.workers && forall d: nat :: d < |s1.clients| ==> Held(s', d) == Held(s1, d)
  {
    var s1 := Exec(s, run);
    RunKeepsShape(s, run);
    ShapeIsSane(s1);
    FinishEnds(s1, c);
    ExecOne(s1, Finish(c), []);
    ExecAppend(s, run, [Finish(c)] + []);
    steps := run + ([Finish(c)] + []);
  }

  lemma HeldAfter(s: State, s1: State, c: Cid)
    requires At(s, c) && s.clients[c].phase.Delivering? && DeliverDone(s, s1, c)
    ensures var p := s.clients[c].phase;
            forall d: nat :: d < |s.clients| ==>
              Held(s1, d) == if d in p.rest then Offer(Held(s, d), Live(p.b, Direct), SEND_BUFFER) else Held(s, d)
  {}

  lemma FinishEnds(s: State, c: Cid)
    requires Shape(s) && Sane(s) && Enabled(s, Finish(c))
    ensures var s' := Apply(s, Finish(c));
            && Legal(s', []) && SameRoom(s, s') && s'.crashed == s.crashed && s'.clients[c].phase == Idle
            && s'.workers == s.workers && forall d: nat :: d < |s.clients| ==> Held(s', d) == Held(s, d)
  {
    StepKeepsShape(s, Finish(c));
    ShapeIsSane(Apply(s, Finish(c)));
  }

  // ---- one frame ----

  /** Everything but client c's phase and the store is as it was. */
  ghost predicate OnlyHandled(s: State, s': State, c: Cid) {
    && s'.members == s.members && s'.log == s.log && s'.hasPool == s.hasPool && |s'.clients| == |s.clients|
    && s'.workers == s.workers && s'.crashed == s.crashed && s'.shut == s.shut
    && forall d: nat :: d < |s.clients| ==> Held(s', d) == Held(s, d)
  }

  // Client c takes up a frame that is a typing event, or one that is saved, or one whose save fails.
  lemma TakesUp(s: State, c: Cid, typing: bool, saved: bool) returns (a: Step, s1: State)
    requires Serves(s, c)
    ensures a == if typing then TypingFrame(c) else Persist(c, saved)
    ensures Sane(s) && Shape(s) && Enabled(s, a) && s1 == Apply(s, a) && Reachable(s1) && OnlyHandled(s, s1, c)
    ensures s1.clients[c].phase == Holding(if typing then Typing else if saved then Chat(|s.store|) else Unsaved)
    ensures s1.store == s.store + if !typing && saved then [Row(Member(c), Unsent)] else []
  {
    EveryReachableStateIsWellFormed(s);
    a := if typing then TypingFrame(c) else Persist(c, saved);
    StepStaysReachable(s, a);
    s1 := Apply(s, a);
  }

  /** The store once a held message is done with: its row, if it has one, got this fate. */
  function Settled(store: seq<Row>, body: Body, fate: Fate): seq<Row> {
    if body.Chat? && body.row < |store| then store[body.row := store[body.row].(fate := fate)] else store
  }

  // A message that does not encode is given up.
  lemma GivesUp(s: State, c: Cid) returns (s': State)
    requires Reachable(s) && !s.crashed && At(s, c) && s.clients[c].phase.Holding?
    ensures Sane(s) && Shape(s) && s' == Apply(s, Skip(c)) && Reachable(s') && OnlyHandled(s, s', c)
    ensures s'.clients[c].phase == Idle && s'.store == Settled(s.store, s.clients[c].phase.body, Abandoned)
  {
    EveryReachableStateIsWellFormed(s);
    assert ClientOK(s, c, s.clients[c]);
    StepStaysReachable(s, Skip(c));
    s' := Apply(s, Skip(c));
  }

  // A held message goes out, or is given up if it does not encode.
  lemma MessageRuns(s: State, c: Cid, order: seq<Cid>, encodes: bool) returns (steps: seq<Step>)
    requires Reachable(s) && !s.crashed && At(s, c) && s.clients[c].phase.Holding? && NoneClosed(s.workers)
    requires IsSnapshot(order, s.members, c)
    ensures Legal(s, steps) && OwnSteps(steps, c) && Serves(Exec(s, steps), c)
    ensures var s', body := Exec(s, steps), s.clients[c].phase.body;
            if encodes then WentOut(s, s', c, |s.log|, order) && s'.log == s.log + [Bcast(c, body, order)]
                            && s'.store == Settled(s.store, body, SentAs(|s.log|))
            else OnlyHandled(s, s', c) && s'.store == Settled(s.store, body, Abandoned)
  {
    EveryReachableStateIsWellFormed(s);
    if encodes {
      if s.hasPool { steps := PooledGoesOut(s, c, order); } else { steps := DirectGoesOut(s, c, order); }
      RunReaches(s, steps);
    } else {
      var s' := GivesUp(s, c);
      EveryReachableStateIsWellFormed(s');
      ExecOne(s, Skip(c), []);
      steps := [Skip(c)] + [];
    }
  }

  lemma {:induction false} RunReaches(s: State, steps: seq<Step>)
    requires Reachable(s) && Legal(s, steps)
    ensures Reachable(Exec(s, steps))
    decreases |steps|
  {
    if steps != [] {
      StepStaysReachable(s, steps[0]);
      RunReaches(Apply(s, steps[0]), steps[1..]);
    }
  }

  function Notices(n: nat): (r: seq<Item>)
    ensures |r| == n
  {
    seq(n, _ => Notice)
  }

  /** A frame was handled: `bounces` notices for its sender, and with body `body` a row and a broadcast or neither. */
  ghost predicate Handled(s: State, s': State, c: Cid, order: seq<Cid>, bounces: nat, body: Body, sent: bool) {
    && s'.members == s.members && s'.hasPool == s.hasPool && |s'.clients| == |s.clients|
    && s'.log == s.log + (if sent then [Bcast(c, body, order)] else [])
    && s'.store == s.store + (if body == Chat(|s.store|)
                              then [Row(Member(c), if sent then SentAs(|s.log|) else Abandoned)] else [])
    && At(s, c) && Held(s', c) == OfferAll(Held(s, c), Notices(bounces), SEND_BUFFER)
    && (forall d: nat :: d < |s.clients| && d != c ==>
          Held(s', d) == if sent && !s.hasPool && d in s.members
                         then Offer(Held(s, d), Live(|s.log|, Direct), SEND_BUFFER) else Held(s, d))
    && |s'.workers| == |s.workers|
    && (if sent && s.hasPool then |s.workers| > 0 && Queues(s') == SubmitAll(Queues(s), Job(|s.log|, order))
        else s'.workers == s.workers)
  }

  // A frame over the limit, whose notice may encode or not.
  lemma BounceRuns(s: State, c: Cid, order: seq<Cid>, encodes: bool) returns (steps: seq<Step>)
    requires Serves(s, c)
    ensures Legal(s, steps) && OwnSteps(steps, c) && Serves(Exec(s, steps), c)
    ensures Handled(s, Exec(s, steps), c, order, if encodes then 1 else 0, Unsaved, false)
  {
    EveryReachableStateIsWellFormed(s);
    if encodes {
      StepStaysReachable(s, SelfError(c));
      var s' := Apply(s, SelfError(c));
      EveryReachableStateIsWellFormed(s');
      ExecOne(s, SelfError(c), []);
      steps := [SelfError(c)] + [];
      AcceptIsOffer(s.clients[c], Notice);
      assert Notices(1) == [Notice] && [Notice][1..] == [];
    } else {
      steps := [];
      assert Notices(0) == [];
    }
  }

  // A frame that is taken up.
  lemma MessageTurn(s: State, c: Cid, order: seq<Cid>, typing: bool, saved: bool, encodes: bool)
      returns (steps: seq<Step>)
    requires Serves(s, c) && IsSnapshot(order, s.members, c)
    ensures Legal(s, steps) && OwnSteps(steps, c) && Serves(Exec(s, steps), c)
    ensures Handled(s, Exec(s, steps), c, order, 0,
            if typing then Typing else if saved then Chat(|s.store|) else Unsaved, encodes)
  {
    var a, s1 := TakesUp(s, c, typing, saved);
    var run := MessageRuns(s1, c, order, encodes);
    ExecOne(s, a, run);
    steps := [a] + run;
    HandledBy(s, s1, Exec(s1, run), c, order, s1.clients[c].phase.body, encodes);
  }

  lemma HandledBy(s: State, s1: State, s': State, c: Cid, order: seq<Cid>, body: Body, encodes: bool)
    requires Serves(s, c) && IsSnapshot(order, s.members, c) && OnlyHandled(s, s1, c)
    requires s1.store == s.store + if body == Chat(|s.store|) then [Row(Member(c), Unsent)] else []
    requires body.Chat? ==> body == Chat(|s.store|)
    requires if encodes then WentOut(s1, s', c, |s1.log|, order) && s'.log == s1.log + [Bcast(c, body, order)]
                             && s'.store == Settled(s1.store, body, SentAs(|s1.log|))
             else OnlyHandled(s1, s', c) && s'.store == Settled(s1.store, body, Abandoned)
    ensures Handled(s, s', c, order, 0, body, encodes)
  {
    EveryReachableStateIsWellFormed(s);
    SnapshotFacts(s, c, order);
    assert Notices(0) == [];
    assert Queues(s1) == Queues(s);
  }

  /** Whether the message that a frame within the limit becomes encodes. */
  predicate GoesOut(codec: Messages.Codec, username: string, i: FramePipeline.Input) {
    codec.marshal(if codec.isTyping(i.data) then FramePipeline.TypingWire(username, i.now)
                  else Messages.ChatWire(username, i.data, i.saved, i.now)).Some?
  }

  // How many bounces, broadcasts and rows the trace of one frame has.
  lemma TurnCounts(codec: Messages.Codec, username: string, i: FramePipeline.Input)
    ensures var effects := FramePipeline.Effects(codec, username, i); var over := |i.data| > 300;
            && |FramePipeline.Bounces(effects)|
               == (if over && codec.marshal(FramePipeline.ErrorWire(i.now)).Some? then 1 else 0)
            && |FramePipeline.SentBytes(effects)| == (if !over && GoesOut(codec, username, i) then 1 else 0)
            && |FramePipeline.Rows(effects, 0, 0)|
               == (if !over && !codec.isTyping(i.data) && i.saved.Saved? then 1 else 0)
  {
    BouncesOfTurn(codec, username, i);
    SentOfTurn(codec, username, i);
    RowsOfTurn(codec, username, i);
  }

  lemma BouncesOfTurn(codec: Messages.Codec, username: string, i: FramePipeline.Input)
    ensures |FramePipeline.Bounces(FramePipeline.Effects(codec, username, i))|
         == if |i.data| > 300 && codec.marshal(FramePipeline.ErrorWire(i.now)).Some? then 1 else 0
  {
    FramePipeline.ViewOfTurn(codec, username, i, FramePipeline.BounceOf);
  }

  lemma SentOfTurn(codec: Messages.Codec, username: string, i: FramePipeline.Input)
    ensures |FramePipeline.SentBytes(FramePipeline.Effects(codec, username, i))|
         == if |i.data| <= 300 && GoesOut(codec, username, i) then 1 else 0
  {
    FramePipeline.ViewOfTurn(codec, username, i, FramePipeline.SentOf);
  }

  lemma RowsOfTurn(codec: Messages.Codec, username: string, i: FramePipeline.Input)
    ensures |FramePipeline.Rows(FramePipeline.Effects(codec, username, i), 0, 0)|
         == if |i.data| <= 300 && !codec.isTyping(i.data) && i.saved.Saved? then 1 else 0
  {
    FramePipeline.ViewOfTurn(codec, username, i, FramePipeline.RowsBy(0, 0));
  }

  /** The body of the broadcast for a frame within the limit; a saved chat's row comes next in the store. */
  function BodyFor(codec: Messages.Codec, i: FramePipeline.Input, rows: nat): Body {
    if codec.isTyping(i.data) || |i.data| > 300 then Typing else if i.saved.Saved? then Chat(rows) else Unsaved
  }

  // One turn of the read loop. A run of client c's own steps does to the room what the trace of the frame says: as many
  // notices in its own buffer as the trace has bounces, a row if the trace stores one, and if the trace broadcasts, one
  // broadcast to all others, of a typing event, of the row, or of a chat whose save failed.
  lemma TurnRuns(codec: Messages.Codec, username: string, i: FramePipeline.Input, s: State, c: Cid, order: seq<Cid>)
      returns (steps: seq<Step>)
    requires Serves(s, c) && IsSnapshot(order, s.members, c)
    ensures Legal(s, steps) && OwnSteps(steps, c) && Serves(Exec(s, steps), c)
    ensures var effects := FramePipeline.Effects(codec, username, i);
            && |FramePipeline.SentBytes(effects)| <= 1
            && |FramePipeline.Rows(effects, 0, 0)| == (if BodyFor(codec, i, |s.store|).Chat? then 1 else 0)
            && Handled(s, Exec(s, steps), c, order, |FramePipeline.Bounces(effects)|, BodyFor(codec, i, |s.store|),
                 |FramePipeline.SentBytes(effects)| == 1)
  {
    TurnCounts(codec, username, i);
    if |i.data| > 300 {
      steps := BounceRuns(s, c, order, codec.marshal(FramePipeline.ErrorWire(i.now)).Some?);
    } else {
      steps := MessageTurn(s, c, order, codec.isTyping(i.data), i.saved.Saved?, GoesOut(codec, username, i));
    }
  }

  // ---- the whole read loop ----

  /** n broadcasts from number b on, as they reach a buffer from the sender's own loop. */
  function DirectItems(b: nat, n: nat): (r: seq<Item>)
    ensures |r| == n
  {
    seq(n, k requires 0 <= k < n => Live(b + k, Direct))
  }

  /** This many broadcasts and rows of client c's were added. */
  ghost predicate LoopRecords(s: State, s': State, c: Cid, rows: nat, sent: nat) {
    && s'.members == s.members && s'.hasPool == s.hasPool && |s'.clients| == |s.clients|
    && |s'.log| == |s.log| + sent && s.log <= s'.log
    && (forall b: nat :: |s.log| <= b < |s'.log| ==>
          s'.log[b].sender == c && IsSnapshot(s'.log[b].snapshot, s.members, c))
    && |s'.store| == |s.store| + rows && s.store <= s'.store
    && forall k: nat :: |s.store| <= k < |s'.store| ==> s'.store[k].author == Member(c) && !s'.store[k].fate.Unsent?
  }

  /** Client c was offered this many notices, and in an unpooled room each other member these broadcasts. */
  ghost predicate LoopOffers(s: State, s': State, c: Cid, bounces: nat, sent: nat) {
    && |s'.clients| == |s.clients| && At(s, c)
    && Held(s', c) == OfferAll(Held(s, c), Notices(bounces), SEND_BUFFER)
    && forall d: nat :: d < |s.clients| && d != c ==>
         Held(s', d) == if !s.hasPool && d in s.members
                        then OfferAll(Held(s, d), DirectItems(|s.log|, sent), SEND_BUFFER) else Held(s, d)
  }

  lemma RecordsOn(s: State, mid: State, s': State, c: Cid, order: seq<Cid>, bounces: nat, body: Body, one: bool,
      rows: nat, sent: nat)
    requires Handled(s, mid, c, order, bounces, body, one) && IsSnapshot(order, s.members, c)
    requires body.Chat? ==> body == Chat(|s.store|)
    requires LoopRecords(mid, s', c, rows, sent)
    ensures LoopRecords(s, s', c, (if body.Chat? then 1 else 0) + rows, (if one then 1 else 0) + sent)
  {}

  lemma OffersOn(s: State, mid: State, s': State, c: Cid, order: seq<Cid>, bounces: nat, body: Body, one: bool,
      more: nat, sent: nat)
    requires Handled(s, mid, c, order, bounces, body, one) && LoopOffers(mid, s', c, more, sent)
    ensures LoopOffers(s, s', c, bounces + more, (if one then 1 else 0) + sent)
  {
    MoreNotices(Held(s, c), bounces, more);
    forall d: nat | d < |s.clients| && d != c
      ensures Held(s', d) == if !s.hasPool && d in s.members
              then OfferAll(Held(s, d), DirectItems(|s.log|, (if one then 1 else 0) + sent), SEND_BUFFER)
              else Held(s, d)
    {
      if one { OneMoreItem(Held(s, d), |s.log|, sent); }
    }
  }

  lemma MoreNotices(buffer: seq<Item>, n: nat, m: nat)
    ensures OfferAll(OfferAll(buffer, Notices(n), SEND_BUFFER), Notices(m), SEND_BUFFER)
         == OfferAll(buffer, Notices(n + m), SEND_BUFFER)
  {
    OfferAllAppend(buffer, Notices(n), Notices(m), SEND_BUFFER);
    assert Notices(n) + Notices(m) == Notices(n + m);
  }

  lemma OneMoreItem(buffer: seq<Item>, b: nat, n: nat)
    ensures OfferAll(Offer(buffer, Live(b, Direct), SEND_BUFFER), DirectItems(b + 1, n), SEND_BUFFER)
         == OfferAll(buffer, DirectItems(b, 1 + n), SEND_BUFFER)
  {
    assert DirectItems(b, 1 + n)[1..] == DirectItems(b + 1, n);
  }

  lemma NothingLooped(s: State, c: Cid)
    requires At(s, c)
    ensures LoopRecords(s, s, c, 0, 0) && LoopOffers(s, s, c, 0, 0)
  {
    assert Notices(0) == [] && DirectItems(|s.log|, 0) == [];
  }

  /** The read loop of client c went on: this many notices, rows and broadcasts. */
  ghost predicate Looped(s: State, s': State, c: Cid, bounces: nat, rows: nat, sent: nat) {
    LoopRecords(s, s', c, rows, sent) && LoopOffers(s, s', c, bounces, sent)
  }

  lemma ThenLooped(s: State, mid: State, s': State, c: Cid, order: seq<Cid>, body: Body, first: Counts, rest: Counts)
    requires IsSnapshot(order, s.members, c) && (body.Chat? ==> body == Chat(|s.store|))
    requires first.sent <= 1 && first.rows == if body.Chat? then 1 else 0
    requires Handled(s, mid, c, order, first.bounces, body, first.sent == 1)
    requires Looped(mid, s', c, rest.bounces, rest.rows, rest.sent)
    ensures Looped(s, s', c, first.bounces + rest.bounces, first.rows + rest.rows, first.sent + rest.sent)
  {
    RecordsOn(s, mid, s', c, order, first.bounces, body, first.sent == 1, rest.rows, rest.sent);
    OffersOn(s, mid, s', c, order, first.bounces, body, first.sent == 1, rest.bounces, rest.sent);
  }

  /** How much of each kind a trace has. */
  datatype Counts = Counts(bounces: nat, rows: nat, sent: nat)

  function CountsOf(trace: seq<FramePipeline.Effect>): Counts {
    Counts(|FramePipeline.Bounces(trace)|, |FramePipeline.Rows(trace, 0, 0)|, |FramePipeline.SentBytes(trace)|)
  }

  /** The counts of one frame's trace, by what becomes of the frame. */
  function FrameCounts(codec: Messages.Codec, username: string, i: FramePipeline.Input): Counts {
    if |i.data| > 300 then Counts(if codec.marshal(FramePipeline.ErrorWire(i.now)).Some? then 1 else 0, 0, 0)
    else
      Counts(0, if !codec.isTyping(i.data) && i.saved.Saved? then 1 else 0,
        if GoesOut(codec, username, i) then 1 else 0)
  }

  function Sum(codec: Messages.Codec, username: string, inputs: seq<FramePipeline.Input>): Counts {
    if inputs == [] then Counts(0, 0, 0)
    else
      var first, rest := FrameCounts(codec, username, inputs[0]), Sum(codec, username, inputs[1..]);
      Counts(first.bounces + rest.bounces, first.rows + rest.rows, first.sent + rest.sent)
  }

  lemma {:induction false} SumCountsTheTrace(codec: Messages.Codec, username: string, inputs: seq<FramePipeline.Input>)
    ensures Sum(codec, username, inputs) == CountsOf(FramePipeline.Trace(codec, username, inputs))
    decreases |inputs|
  {
    if inputs != [] {
      TurnCounts(codec, username, inputs[0]);
      SumCountsTheTrace(codec, username, inputs[1..]);
      TraceSizes(codec, username, inputs);
    }
  }

  /** A run of client c's own steps leads from s to s'. */
  ghost predicate OwnRun(s: State, steps: seq<Step>, s': State, c: Cid) {
    Legal(s, steps) && OwnSteps(steps, c) && Exec(s, steps) == s'
  }

  lemma {:induction false} FramesLoop(codec: Messages.Codec, username: string, inputs: seq<FramePipeline.Input>,
      s: State, c: Cid, order: seq<Cid>) returns (steps: seq<Step>, s': State)
    requires Serves(s, c) && IsSnapshot(order, s.members, c)
    ensures OwnRun(s, steps, s', c) && Serves(s', c)
    ensures var counts := Sum(codec, username, inputs); Looped(s, s', c, counts.bounces, counts.rows, counts.sent)
    decreases |inputs|
  {
    if inputs == [] {
      steps, s' := [], s;
      NothingRuns(s, c);
      NothingLooped(s, c);
    } else {
      var run, mid, body := TurnLoops(codec, username, inputs[0], s, c, order);
      var more;
      more, s' := FramesLoop(codec, username, inputs[1..], mid, c, order);
      steps := run + more;
      OwnRunsJoin(s, run, mid, more, s', c);
      FrameThenFrames(codec, username, inputs, s, mid, s', c, order, body);
    }
  }

  lemma FrameThenFrames(codec: Messages.Codec, username: string, inputs: seq<FramePipeline.Input>, s: State, mid: State,
      s': State, c: Cid, order: seq<Cid>, body: Body)
    requires inputs != [] && IsSnapshot(order, s.members, c) && (body.Chat? ==> body == Chat(|s.store|))
    requires var first := FrameCounts(codec, username, inputs[0]);
             && first.sent <= 1 && first.rows == (if body.Chat? then 1 else 0)
             && Handled(s, mid, c, order, first.bounces, body, first.sent == 1)
    requires var rest := Sum(codec, username, inputs[1..]); Looped(mid, s', c, rest.bounces, rest.rows, rest.sent)
    ensures var all := Sum(codec, username, inputs); Looped(s, s', c, all.bounces, all.rows, all.sent)
  {
    ThenLooped(s, mid, s', c, order, body, FrameCounts(codec, username, inputs[0]), Sum(codec, username, inputs[1..]));
  }

  // The read loop over any frames: a run of client c's own steps leaves in the room as many notices, rows and
  // broadcasts as the trace of the frames has bounces, rows and broadcasts, and in an unpooled room each other member
  // is offered exactly those broadcasts, in order.
  lemma FramesRun(codec: Messages.Codec, username: string, inputs: seq<FramePipeline.Input>, s: State, c: Cid,
      order: seq<Cid>) returns (steps: seq<Step>, s': State)
    requires Serves(s, c) && IsSnapshot(order, s.members, c)
    ensures OwnRun(s, steps, s', c) && Serves(s', c)
    ensures var trace := FramePipeline.Trace(codec, username, inputs);
            Looped(s, s', c, |FramePipeline.Bounces(trace)|, |FramePipeline.Rows(trace, 0, 0)|,
              |FramePipeline.SentBytes(trace)|)
  {
    SumCountsTheTrace(codec, username, inputs);
    steps, s' := FramesLoop(codec, username, inputs, s, c, order);
  }

  lemma NothingRuns(s: State, c: Cid)
    requires Serves(s, c)
    ensures Legal(s, []) && Exec(s, []) == s
  {
    EveryReachableStateIsWellFormed(s);
  }

  lemma OwnRunsJoin(s: State, run: seq<Step>, mid: State, more: seq<Step>, s': State, c: Cid)
    requires Serves(s, c) && OwnRun(s, run, mid, c) && OwnRun(mid, more, s', c)
    ensures OwnRun(s, run + more, s', c)
  {
    EveryReachableStateIsWellFormed(s);
    ExecAppend(s, run, more);
  }

  lemma TurnLoops(codec: Messages.Codec, username: string, i: FramePipeline.Input, s: State, c: Cid, order: seq<Cid>)
      returns (steps: seq<Step>, s': State, body: Body)
    requires Serves(s, c) && IsSnapshot(order, s.members, c)
    ensures OwnRun(s, steps, s', c) && Serves(s', c)
    ensures s'.members == s.members && (body.Chat? ==> body == Chat(|s.store|))
    ensures var first := FrameCounts(codec, username, i);
            && first.sent <= 1 && first.rows == (if body.Chat? then 1 else 0)
            && Handled(s, s', c, order, first.bounces, body, first.sent == 1)
  {
    TurnCounts(codec, username, i);
    steps := TurnRuns(codec, username, i, s, c, order);
    s' := Exec(s, steps);
    body := BodyFor(codec, i, |s.store|);
  }

  lemma TraceSizes(codec: Messages.Codec, username: string, inputs: seq<FramePipeline.Input>)
    requires inputs != []
    ensures var effects, more := FramePipeline.Effects(codec, username, inputs[0]),
                                 FramePipeline.Trace(codec, username, inputs[1..]);
            var trace := FramePipeline.Trace(codec, username, inputs);
            && |FramePipeline.Bounces(trace)| == |FramePipeline.Bounces(effects)| + |FramePipeline.Bounces(more)|
            && |FramePipeline.SentBytes(trace)| == |FramePipeline.SentBytes(effects)| + |FramePipeline.SentBytes(more)|
            && |FramePipeline.Rows(trace, 0, 0)|
               == |FramePipeline.Rows(effects, 0, 0)| + |FramePipeline.Rows(more, 0, 0)|
  {
    var effects, more := FramePipeline.Effects(codec, username, inputs[0]),
                         FramePipeline.Trace(codec, username, inputs[1..]);
    TraceFront(codec, username, inputs);
    Messages.CollectAppend(effects, more, FramePipeline.BounceOf);
    Messages.CollectAppend(effects, more, FramePipeline.SentOf);
    Messages.CollectAppend(effects, more, FramePipeline.RowsBy(0, 0));
  }

  lemma TraceFront(codec: Messages.Codec, username: string, inputs: seq<FramePipeline.Input>)
    requires inputs != []
    ensures FramePipeline.Trace(codec, username, inputs)
         == FramePipeline.Effects(codec, username, inputs[0]) + FramePipeline.Trace(codec, username, inputs[1..])
  {
    var f := FramePipeline.EffectsOf(codec, username);
    Messages.CollectOne(inputs[0], f);
    Messages.CollectAppend([inputs[0]], inputs[1..], f);
    assert inputs == [inputs[0]] + inputs[1..];
  }

  // ---- what a run records ----

  function AuthorsOf(store: seq<Row>): (r: seq<Author>)
    ensures |r| == |store| && forall k :: 0 <= k < |r| ==> r[k] == store[k].author
  {
    seq(|store|, k requires 0 <= k < |store| => store[k].author)
  }

  /** Who saved a row in the run, in order. */
  function Savers(steps: seq<Step>): seq<Author> {
    if steps == [] then [] else SavedBy(steps[0]) + Savers(steps[1..])
  }

  function SavedBy(a: Step): seq<Author> {
    match a
    case Persist(c, ok) => if ok then [Member(c)] else []
    case PersistElsewhere => [Elsewhere]
    case _ => []
  }

  lemma StepSaves(s: State, a: Step)
    requires Sane(s) && Enabled(s, a)
    ensures AuthorsOf(Apply(s, a).store) == AuthorsOf(s.store) + SavedBy(a)
  {
    if a.Persist? || a.PersistElsewhere? || a.Skip? || a.Snapshot? { OwnerStepSaves(s, a); }
    else { OtherStepSaves(s, a); }
  }

  lemma OwnerStepSaves(s: State, a: Step)
    requires Sane(s) && Enabled(s, a) && (a.Persist? || a.PersistElsewhere? || a.Skip? || a.Snapshot?)
    ensures AuthorsOf(Apply(s, a).store) == AuthorsOf(s.store) + SavedBy(a)
  {}

  lemma OtherStepSaves(s: State, a: Step)
    requires Sane(s) && Enabled(s, a) && !a.Persist? && !a.PersistElsewhere? && !a.Skip? && !a.Snapshot?
    ensures Apply(s, a).store == s.store
  {
    if a.Deliver? || a.Enqueue? || a.Take? || a.Send? { MoveSavesNothing(s, a); }
  }

  lemma MoveSavesNothing(s: State, a: Step)
    requires Sane(s) && Enabled(s, a) && (a.Deliver? || a.Enqueue? || a.Take? || a.Send?)
    ensures Apply(s, a).store == s.store
  {}

  // The store is the run's record: its rows are those of the successful saves of the run, here and elsewhere, in order.
  lemma {:induction false} StoreIsTheSaves(s: State, steps: seq<Step>)
    requires Legal(s, steps)
    ensures AuthorsOf(Exec(s, steps).store) == AuthorsOf(s.store) + Savers(steps)
    decreases |steps|
  {
    if steps != [] {
      StepSaves(s, steps[0]);
      StoreIsTheSaves(Apply(s, steps[0]), steps[1..]);
      Grouped(AuthorsOf(s.store), SavedBy(steps[0]), Savers(steps[1..]));
    }
  }

  lemma Grouped<T>(a: seq<T>, b: seq<T>, c: seq<T>)
    ensures (a + b) + c == a + (b + c)
  {}
}
