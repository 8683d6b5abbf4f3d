// Exactly when a shutdown that waits for the workers can still return.
module ShutdownReturn {
  import opened RoomProtocol
  import opened RoomInvariants
  import opened PoolShutdown
  import opened WorkerLines
  import opened RemovalSafety
  import opened Reordering

  // ---- a worker never gets rid of a delivery for a removed client ----

  lemma HeldForRemoved(s: State) returns (w: nat, d: Cid, b: nat)
    requires !OpenTargets(s)
    ensures Blocked(s, w, d, b)
  {
    w, d :| w < |s.workers| && d < |s.clients| && s.clients[d].phase.Gone?
        && (d in s.workers[w].hand.clients
            || exists q :: 0 <= q < |s.workers[w].queue| && d in s.workers[w].queue[q].clients);
    var wk := s.workers[w];
    if d in wk.hand.clients {
      b := wk.hand.message;
    } else {
      var q :| 0 <= q < |wk.queue| && d in wk.queue[q].clients;
      b := wk.queue[q].message;
    }
    InLine(wk, d, b);
    var j :| 0 <= j < |Line(wk)| && Line(wk)[j] == (b, d);
    assert IsGone(s, Line(wk)[j].1);
  }

  // A worker keeps such a delivery, so no run, whatever its steps, lets a shutdown return.
  lemma BlockedNeverReturns(s: State, steps: seq<Step>, w: nat, d: Cid, b: nat)
    requires Shape(s) && Legal(s, steps) && Blocked(s, w, d, b)
    ensures !Enabled(Exec(s, steps), ShutReturn)
  {
    RunKeepsShape(s, steps);
    RunKeepsBlocked(s, steps, w, d, b);
    var done := Exec(s, steps);
    BlockedHolds(done, w, d, b);
    assert WorkerOK(done.workers[w], |done.log|, |done.clients|);
  }

  /** Some continuation of the run brings the shutdown to its return. */
  ghost predicate CanReturn(s: State) { exists steps :: Legal(s, steps) && Enabled(Exec(s, steps), ShutReturn) }

  // In every reachable live state where a shutdown waits for the workers: it can still return if and only if no worker
  // holds a delivery for a removed client.
  lemma ShutdownReturnsExactlyWhenTargetsAreOpen(s: State)
    requires Reachable(s) && s.shut.Waiting? && !s.crashed
    ensures CanReturn(s) <==> OpenTargets(s)
  {
    if OpenTargets(s) {
      var steps := ShutdownCanReturn(s);
    } else {
      EveryReachableStateIsWellFormed(s);
      var w, d, b := HeldForRemoved(s);
      forall steps | Legal(s, steps) ensures !Enabled(Exec(s, steps), ShutReturn) {
        BlockedNeverReturns(s, steps, w, d, b);
      }
    }
  }

  // ---- a shutdown that can never return ----

  /** Only the worker channels and the shutdown itself differ. */
  predicate OnlyClosing(s: State, s': State) {
    && s'.clients == s.clients && s'.crashed == s.crashed && s'.hasPool == s.hasPool && |s'.workers| == |s.workers|
    && forall w :: 0 <= w < |s.workers| ==>
         s'.workers[w].queue == s.workers[w].queue && s'.workers[w].hand == s.workers[w].hand
  }

  // Room.Shutdown closes every channel and then waits.
  lemma {:induction false} CloseAll(s: State) returns (steps: seq<Step>)
    requires Reachable(s) && !s.crashed && s.shut.Closing?
    ensures Legal(s, steps) && forall i :: 0 <= i < |steps| ==> steps[i].ShutClose?
    ensures Exec(s, steps).shut.Waiting? && OnlyClosing(s, Exec(s, steps)) && Reachable(Exec(s, steps))
    decreases |s.workers| - s.shut.k
  {
    EveryReachableStateIsWellFormed(s);
    StepStaysReachable(s, ShutClose);
    var s' := Apply(s, ShutClose);
    var rest;
    if s'.shut.Waiting? {
      EveryReachableStateIsWellFormed(s');
      rest := [];
    } else {
      rest := CloseAll(s');
    }
    steps := [ShutClose] + rest;
    ExecOne(s, ShutClose, rest);
  }

  // A member leaves while two broadcasts to it are with workers, and the room is shut down: the shutdown waits for
  // workers that can only end by sending on the closed channel.
  lemma WaitingForeverIsReachable() returns (s: State)
    ensures Reachable(s) && !s.crashed && s.shut.Waiting? && !OpenTargets(s) && !CanReturn(s)
  {
    s := BothAnnounced();
    s := TakeStep(s, Remove(1));
    assert s.workers[0].queue[0].clients == [1] && IsGone(s, 1);
    s := TakeStep(s, ShutStart);
    var closes := CloseAll(s);
    s := Exec(s, closes);
    assert s.workers[0].queue[0].clients == [1] && IsGone(s, 1);
    ShutdownReturnsExactlyWhenTargetsAreOpen(s);
  }
}
