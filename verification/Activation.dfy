// The pool is switched on lazily by double-checked locking; a big room without one always has an Add that owes it.
module Activation {
  import opened Sharding
  import opened RoomProtocol
  import opened RoomInvariants

  /** Client c's Add read a size at the threshold and has not yet passed its second lock section. */
  predicate Owes(s: State, c: Cid)
    requires At(s, c)
  {
    (s.clients[c].phase.Added? && s.clients[c].phase.count >= POOL_THRESHOLD) || s.clients[c].phase.Activating?
  }

  ghost predicate PoolOrOwed(s: State) {
    |s.members| >= POOL_THRESHOLD && !s.hasPool ==> exists c: nat :: c < |s.clients| && Owes(s, c)
  }

  predicate AddStep(a: Step) { a.AddLock? || a.AddCheck? || a.Activate? }

  lemma AddStepKeeps(s: State, a: Step)
    requires Sane(s) && PoolOrOwed(s) && Enabled(s, a) && AddStep(a)
    ensures PoolOrOwed(Apply(s, a))
  {
    var s' := Apply(s, a);
    if |s'.members| >= POOL_THRESHOLD && !s'.hasPool {
      if a.AddLock? {
        assert Owes(s', a.c);
      } else {
        var c: nat :| c < |s.clients| && Owes(s, c);
        assert Owes(s', c);
      }
    }
  }

  lemma MembersShrink(s: State, a: Step)
    requires Sane(s) && Enabled(s, a) && !AddStep(a)
    ensures Apply(s, a).hasPool == s.hasPool && |Apply(s, a).members| <= |s.members|
  {
    if a.Remove? { assert Apply(s, a).members == s.members - {a.c}; }
  }

  lemma OwerWaits(s: State, a: Step, c: Cid)
    requires Sane(s) && Enabled(s, a) && !AddStep(a) && At(s, c) && Owes(s, c)
    ensures At(Apply(s, a), c) && Owes(Apply(s, a), c)
  {
    if a.Deliver? || a.Enqueue? { OwerWaitsForLoop(s, a, c); }
    else if a.Take? || a.Send? || a.Exit? { OwerWaitsForWorker(s, a, c); }
    else if a.Persist? || a.PersistElsewhere? || a.Skip? || a.Snapshot? || a.Finish? || a.TypingFrame? || a.SelfError? {
      OwerWaitsForFrame(s, a, c);
    }
    else { OwerWaitsForOthers(s, a, c); }
  }

  lemma OwerWaitsForLoop(s: State, a: Step, c: Cid)
    requires Sane(s) && Enabled(s, a) && At(s, c) && Owes(s, c) && (a.Deliver? || a.Enqueue?)
    ensures At(Apply(s, a), c) && Owes(Apply(s, a), c)
  {}

  lemma OwerWaitsForWorker(s: State, a: Step, c: Cid)
    requires Sane(s) && Enabled(s, a) && At(s, c) && Owes(s, c) && (a.Take? || a.Send? || a.Exit?)
    ensures At(Apply(s, a), c) && Owes(Apply(s, a), c)
  {}

  lemma OwerWaitsForFrame(s: State, a: Step, c: Cid)
    requires Sane(s) && Enabled(s, a) && At(s, c) && Owes(s, c)
    requires a.Persist? || a.PersistElsewhere? || a.Skip? || a.Snapshot? || a.Finish? || a.TypingFrame? || a.SelfError?
    ensures At(Apply(s, a), c) && Owes(Apply(s, a), c)
  {}

  lemma OwerWaitsForOthers(s: State, a: Step, c: Cid)
    requires Sane(s) && Enabled(s, a) && At(s, c) && Owes(s, c)
    requires a.Connect? || a.Query? || a.Replay? || a.Start? || a.Remove? || a.Consume? || a.ShutStart? || a.ShutClose?
             || a.ShutReturn?
    ensures At(Apply(s, a), c) && Owes(Apply(s, a), c)
  {}

  lemma OtherStepKeeps(s: State, a: Step)
    requires Shape(s) && Sane(s) && PoolOrOwed(s) && Enabled(s, a) && !AddStep(a)
    ensures PoolOrOwed(Apply(s, a))
  {
    MembersShrink(s, a);
    if |s.members| >= POOL_THRESHOLD && !s.hasPool {
      var c: nat :| c < |s.clients| && Owes(s, c);
      OwerWaits(s, a, c);
    }
  }

  lemma {:induction false} RunKeepsOwed(s: State, steps: seq<Step>)
    requires Shape(s) && PoolOrOwed(s) && Legal(s, steps)
    ensures PoolOrOwed(Exec(s, steps))
    decreases |steps|
  {
    if steps != [] {
      StepKeepsShape(s, steps[0]);
      if AddStep(steps[0]) { AddStepKeeps(s, steps[0]); } else { OtherStepKeeps(s, steps[0]); }
      RunKeepsOwed(Apply(s, steps[0]), steps[1..]);
    }
  }

  // In every reachable state a room at or over the threshold has a pool, or an Add in flight still owes one; so with
  // no Add in flight the size alone decides.
  lemma BigRoomsHavePools(s: State)
    requires Reachable(s) && |s.members| >= POOL_THRESHOLD
    ensures s.hasPool || exists c: nat :: c < |s.clients| && Owes(s, c)
    ensures (forall c: nat :: c < |s.clients| ==> !s.clients[c].phase.Added? && !s.clients[c].phase.Activating?) ==>
            s.hasPool
  {
    var steps :| Legal(Init(s.limit), steps) && Exec(Init(s.limit), steps) == s;
    RunKeepsOwed(Init(s.limit), steps);
  }

  // Once made, the pool is never unset and never made again.
  lemma {:induction false} PoolIsForever(s: State, steps: seq<Step>)
    requires Shape(s) && Legal(s, steps) && s.hasPool
    ensures var s' := Exec(s, steps);
            s'.hasPool && s'.created == s.created == 1 && |s'.workers| == |s.workers| == WORKER_COUNT
    decreases |steps|
  {
    if steps != [] {
      StepKeepsShape(s, steps[0]);
      PoolStays(s, steps[0]);
      PoolIsForever(Apply(s, steps[0]), steps[1..]);
    }
  }

  lemma PoolStays(s: State, a: Step)
    requires Shape(s) && Sane(s) && Enabled(s, a) && s.hasPool
    ensures Apply(s, a).hasPool
  {}
}
