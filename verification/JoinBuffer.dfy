// Until its read loop starts, a joining client's buffer is only filled: the replay and the broadcasts that come
// meanwhile share its 256 items.
module JoinBuffer {
  import opened RoomProtocol
  import opened RoomInvariants

  /** The read loop has not begun. */
  predicate Joining(p: Phase) { p.Fresh? || p.Added? || p.Activating? || p.Joined? || p.Replaying? }

  predicate Unread(cl: Client) { Joining(cl.phase) ==> cl.taken == 0 }

  ghost predicate AllUnread(s: State) { forall c: nat :: c < |s.clients| ==> Unread(s.clients[c]) }

  predicate JoinStep(a: Step) {
    a.Connect? || a.AddLock? || a.AddCheck? || a.Activate? || a.Query? || a.Replay? || a.Start?
  }

  predicate FrameStep(a: Step) {
    a.SelfError? || a.TypingFrame? || a.Persist? || a.Skip? || a.Finish? || a.Remove? || a.Consume?
  }

  lemma JoinStepReadsNothing(s: State, a: Step)
    requires Sane(s) && Enabled(s, a) && JoinStep(a) && AllUnread(s)
    ensures AllUnread(Apply(s, a))
  {}

  lemma FrameStepReadsNothing(s: State, a: Step)
    requires Sane(s) && Enabled(s, a) && FrameStep(a) && AllUnread(s)
    ensures AllUnread(Apply(s, a))
  {}

  lemma LoopReadsNothing(s: State, a: Step)
    requires Sane(s) && Enabled(s, a) && (a.Snapshot? || a.Deliver? || a.Enqueue?) && AllUnread(s)
    ensures AllUnread(Apply(s, a))
  {
    if a.Deliver? { DeliverReadsNothing(s, a.c); }
    else if a.Enqueue? { EnqueueReadsNothing(s, a.c); }
  }

  lemma DeliverReadsNothing(s: State, c: Cid)
    requires Sane(s) && Enabled(s, Deliver(c)) && AllUnread(s)
    ensures AllUnread(Apply(s, Deliver(c)))
  {}

  lemma EnqueueReadsNothing(s: State, c: Cid)
    requires Sane(s) && Enabled(s, Enqueue(c)) && AllUnread(s)
    ensures AllUnread(Apply(s, Enqueue(c)))
  {}

  lemma OtherStepReadsNothing(s: State, a: Step)
    requires Sane(s) && Enabled(s, a) && AllUnread(s)
    requires a.Take? || a.Send? || a.Exit? || a.ShutStart? || a.ShutClose? || a.ShutReturn? || a.PersistElsewhere?
    ensures AllUnread(Apply(s, a))
  {}

  lemma StepReadsNothing(s: State, a: Step)
    requires Sane(s) && Enabled(s, a) && AllUnread(s)
    ensures AllUnread(Apply(s, a))
  {
    if JoinStep(a) { JoinStepReadsNothing(s, a); }
    else if FrameStep(a) { FrameStepReadsNothing(s, a); }
    else if a.Snapshot? || a.Deliver? || a.Enqueue? { LoopReadsNothing(s, a); }
    else { OtherStepReadsNothing(s, a); }
  }

  lemma {:induction false} RunReadsNothing(s: State, steps: seq<Step>)
    requires Legal(s, steps) && AllUnread(s)
    ensures AllUnread(Exec(s, steps))
    decreases |steps|
  {
    if steps != [] {
      StepReadsNothing(s, steps[0]);
      RunReadsNothing(Apply(s, steps[0]), steps[1..]);
    }
  }

  // In every reachable state nothing has been taken from the buffer of a client whose read loop has not begun, so all
  // it was replayed and sent by then is within 256 items.
  lemma NothingIsReadBeforeTheLoop(s: State, c: Cid)
    requires Reachable(s) && At(s, c)
    requires var p := s.clients[c].phase; p.Fresh? || p.Added? || p.Activating? || p.Joined? || p.Replaying?
    ensures s.clients[c].taken == 0 && |s.clients[c].hist| <= 256
  {
    var run :| Legal(Init(s.limit), run) && Exec(Init(s.limit), run) == s;
    RunReadsNothing(Init(s.limit), run);
    EveryReachableStateIsWellFormed(s);
    assert ClientOK(s, c, s.clients[c]);
  }
}
