// The steps of a room that move no delivery: joining, handling a frame, consuming, leaving, and switching the pool.
module QuietSteps {
  import opened RoomProtocol
  import opened RoomInvariants

  /** The buffer is the same, or has gained one item that is no broadcast. */
  predicate HistKept(xs: seq<Item>, ys: seq<Item>) {
    ys == xs || (|ys| == |xs| + 1 && ys[..|xs|] == xs && !ys[|xs|].Live?)
  }

  /** What a loop has left is untouched, or the loop is over. */
  predicate LoopStands(x: Phase, y: Phase) {
    (y.Delivering? || y.Submitting?) && y.rest != [] ==> y == x
  }

  predicate LoadStands(x: Worker, y: Worker) { y.queue == x.queue && y.hand == x.hand && (x.closed ==> y.closed) }

  /** No delivery moved, and no worker's channel was opened. */
  ghost predicate Stands(s: State, s': State) {
    && |s.clients| <= |s'.clients| && s'.log == s.log && s'.badSends == s.badSends && s'.crashed == s.crashed
    && (s.hasPool ==> s'.hasPool)
    && (forall c: nat :: c < |s.clients| ==>
          LoopStands(s.clients[c].phase, s'.clients[c].phase) && HistKept(s.clients[c].hist, s'.clients[c].hist))
    && (forall c: nat :: |s.clients| <= c < |s'.clients| ==> s'.clients[c].phase.Fresh? && s'.clients[c].hist == [])
    && ((|s'.workers| == |s.workers| && forall w: nat :: w < |s.workers| ==> LoadStands(s.workers[w], s'.workers[w]))
        || (s.workers == [] && forall w: nat :: w < |s'.workers| ==>
             s'.workers[w].queue == [] && s'.workers[w].hand.clients == []))
  }

  /** No client was removed. */
  predicate SameGone(s: State, s': State) {
    |s.clients| <= |s'.clients|
        && forall c: nat :: c < |s.clients| ==> s'.clients[c].phase.Gone? == s.clients[c].phase.Gone?
  }

  predicate MovesDelivery(a: Step) { a.Snapshot? || a.Deliver? || a.Enqueue? || a.Take? || a.Send? }

  lemma AddStands(s: State, a: Step)
    requires Sane(s) && Enabled(s, a) && (a.Connect? || a.AddLock? || a.AddCheck?)
    ensures Stands(s, Apply(s, a)) && SameGone(s, Apply(s, a))
  {}

  lemma LookBackStands(s: State, a: Step)
    requires Sane(s) && Enabled(s, a) && (a.Query? || a.Replay? || a.Start?)
    ensures Stands(s, Apply(s, a)) && SameGone(s, Apply(s, a))
  {}

  lemma FrameStands(s: State, a: Step)
    requires Sane(s) && Enabled(s, a) && (a.SelfError? || a.TypingFrame? || a.Skip?)
    ensures Stands(s, Apply(s, a)) && SameGone(s, Apply(s, a))
  {}

  lemma LoopEndStands(s: State, a: Step)
    requires Sane(s) && Enabled(s, a) && (a.Finish? || a.Consume?)
    ensures Stands(s, Apply(s, a)) && SameGone(s, Apply(s, a))
  {}

  lemma PersistStands(s: State, a: Step)
    requires Sane(s) && Enabled(s, a) && (a.Persist? || a.PersistElsewhere?)
    ensures Stands(s, Apply(s, a)) && SameGone(s, Apply(s, a))
  {}

  lemma RemoveStands(s: State, c: Cid)
    requires Sane(s) && Enabled(s, Remove(c))
    ensures Stands(s, Apply(s, Remove(c)))
  {}

  lemma PoolStands(s: State, a: Step)
    requires Shape(s) && Sane(s) && Enabled(s, a) && (a.Activate? || a.Exit?)
    ensures Stands(s, Apply(s, a)) && SameGone(s, Apply(s, a))
  {}

  lemma ShutStands(s: State, a: Step)
    requires Shape(s) && Sane(s) && Enabled(s, a) && (a.ShutStart? || a.ShutClose? || a.ShutReturn?)
    ensures Stands(s, Apply(s, a)) && SameGone(s, Apply(s, a))
  {}

  lemma QuietStands(s: State, a: Step)
    requires Shape(s) && Sane(s) && Enabled(s, a) && !MovesDelivery(a)
    ensures Stands(s, Apply(s, a)) && (!a.Remove? ==> SameGone(s, Apply(s, a)))
  {
    match a
    case Connect(_) | AddLock(_) | AddCheck(_) => AddStands(s, a);
    case Query(_, _) | Replay(_, _) | Start(_) => LookBackStands(s, a);
    case SelfError(_) | TypingFrame(_) | Skip(_) => FrameStands(s, a);
    case Finish(_) | Consume(_) => LoopEndStands(s, a);
    case Persist(_, _) | PersistElsewhere => PersistStands(s, a);
    case Remove(c) => RemoveStands(s, c);
    case Activate(_) | Exit(_) => PoolStands(s, a);
    case ShutStart | ShutClose | ShutReturn => ShutStands(s, a);
  }
}
