// Exactly when no room is shut down twice, and what a second shutdown meets.
module HubShutdown {
  import opened Basics
  import opened Sharding
  import opened RoomProtocol
  import opened RoomInvariants
  import opened Membership
  import opened Activation
  import opened PoolShutdown
  import opened ShutdownReturn
  import opened RemovalSafety
  import opened Reordering
  import opened HubProtocol

  // ---- each room is shut down at most once ----

  /** A room that a removal took out of the map is not in it, and no other removal took it out. */
  ghost predicate TakenApart(h: Hub) {
    && (forall p, q :: 0 <= p < q < |h.removers| && h.removers[p].TookOut? && h.removers[q].TookOut? ==>
         h.removers[p].r != h.removers[q].r)
    && (forall p, id :: 0 <= p < |h.removers| && h.removers[p].TookOut? && id in h.rooms ==>
         h.rooms[id] != h.removers[p].r)
  }

  ghost predicate ShutTwice(h: Hub) { exists r: nat :: r < |h.shutdowns| && h.shutdowns[r] >= 2 }

  /** Removal p took a room out of the map that had been shut down before, and is about to shut it down. */
  predicate ShutsAgain(h: Hub, p: nat) {
    p < |h.removers| && h.removers[p].TookOut? && h.removers[p].r < |h.shutdowns|
        && h.shutdowns[h.removers[p].r] >= 1
  }

  /** Some room was shut down twice, or is about to be. */
  ghost predicate Doomed(h: Hub) { ShutTwice(h) || exists p: nat :: ShutsAgain(h, p) }

  /** No room is under this ID, or one that was never shut down. */
  predicate Unshut(h: Hub, id: Uuid) {
    id in h.rooms && h.rooms[id] < |h.shutdowns| ==> h.shutdowns[h.rooms[id]] == 0
  }

  /** A lock section of Hub.Remove finds no room that was shut down, and Hub.Shutdown finds none in the whole map. */
  predicate FindsUnshut(h: Hub, a: HubStep) {
    match a
    case RemoveLock(p) => p < |h.removers| && h.removers[p].Asked? ==> Unshut(h, h.removers[p].id)
    case StopAll => forall id :: id in h.rooms ==> Unshut(h, id)
    case _ => true
  }

  ghost predicate AllFindUnshut(h: Hub, steps: seq<HubStep>)
    requires LegalHub(h, steps)
    decreases |steps|
  {
    steps == [] || (FindsUnshut(h, steps[0]) && AllFindUnshut(Do(h, steps[0]), steps[1..]))
  }

  /** The same removals under way, the same rooms in the map, and every room shut down as often as before. */
  predicate SameRemovals(h: Hub, h': Hub) {
    && h'.rooms == h.rooms && h'.shutdowns == h.shutdowns && |h.removers| <= |h'.removers|
    && h'.removers[..|h.removers|] == h.removers
    && forall p: nat :: |h.removers| <= p < |h'.removers| ==> h'.removers[p].Asked?
  }

  predicate ShutdownStep(a: HubStep) { a.CreateRoom? || a.RemoveLock? || a.RemoveShut? || a.StopAll? }

  lemma OthersKeepRemovals(h: Hub, a: HubStep)
    requires WellFormed(h) && CanStep(h, a) && !ShutdownStep(a)
    ensures SameRemovals(h, Do(h, a))
  {}

  lemma SameRemovalsSameDoom(h: Hub, h': Hub)
    requires SameRemovals(h, h') && TakenApart(h)
    ensures TakenApart(h') && (Doomed(h') <==> Doomed(h))
  {
    forall p: nat | p < |h'.removers| && h'.removers[p].TookOut?
      ensures p < |h.removers| && h'.removers[p] == h.removers[p]
    {
      if p < |h.removers| { assert h'.removers[..|h.removers|][p] == h'.removers[p]; }
    }
    forall p: nat ensures ShutsAgain(h', p) <==> ShutsAgain(h, p) {
      if p < |h.removers| { assert h'.removers[..|h.removers|][p] == h'.removers[p]; }
    }
  }

  lemma CreateDoomsNothing(h: Hub, j: nat)
    requires WellFormed(h) && CanStep(h, CreateRoom(j)) && TakenApart(h)
    ensures TakenApart(Do(h, CreateRoom(j))) && (Doomed(Do(h, CreateRoom(j))) <==> Doomed(h))
  {
    var h' := Do(h, CreateRoom(j));
    assert h'.shutdowns[..|h.shutdowns|] == h.shutdowns;
    forall p: nat ensures ShutsAgain(h', p) <==> ShutsAgain(h, p) {}
    assert forall r: nat :: r < |h.shutdowns| ==> h'.shutdowns[r] == h.shutdowns[r];
  }

  lemma LockTakesApart(h: Hub, p: nat)
    requires WellFormed(h) && CanStep(h, RemoveLock(p)) && TakenApart(h)
    ensures TakenApart(Do(h, RemoveLock(p)))
  {}

  // A lock section dooms exactly the room it finds shut down.
  lemma LockDooms(h: Hub, p: nat)
    requires WellFormed(h) && CanStep(h, RemoveLock(p))
    ensures Doomed(Do(h, RemoveLock(p))) <==> Doomed(h) || !FindsUnshut(h, RemoveLock(p))
  {
    var h' := Do(h, RemoveLock(p));
    forall q: nat ensures ShutsAgain(h', q) <==> ShutsAgain(h, q) || (q == p && !FindsUnshut(h, RemoveLock(p))) {}
    assert ShutTwice(h') <==> ShutTwice(h);
    if !FindsUnshut(h, RemoveLock(p)) { assert ShutsAgain(h', p); }
    if Doomed(h) && !ShutTwice(h) {
      var q: nat :| ShutsAgain(h, q);
      assert ShutsAgain(h', q);
    }
  }

  // Shutting a room down that was taken out of the map neither dooms nor saves anything.
  lemma ShutDoomsNothing(h: Hub, p: nat)
    requires WellFormed(h) && CanStep(h, RemoveShut(p)) && TakenApart(h)
    ensures TakenApart(Do(h, RemoveShut(p))) && (Doomed(Do(h, RemoveShut(p))) <==> Doomed(h))
  {
    var h' := Do(h, RemoveShut(p));
    var r := h.removers[p].r;
    assert h'.shutdowns[r] == h.shutdowns[r] + 1;
    forall q: nat ensures q != p ==> (ShutsAgain(h', q) <==> ShutsAgain(h, q)) {}
    assert !ShutsAgain(h', p);
    if ShutTwice(h) {
      var x: nat :| x < |h.shutdowns| && h.shutdowns[x] >= 2;
      assert h'.shutdowns[x] >= 2;
    }
    if ShutTwice(h') && !ShutTwice(h) { assert ShutsAgain(h, p); }
  }

  /** Every room in the map was shut down once more. */
  ghost predicate Stopped(h: Hub, h': Hub) {
    && h'.removers == h.removers && h'.rooms == h.rooms && |h'.shutdowns| == |h.shutdowns|
    && forall r: nat :: r < |h.shutdowns| ==>
         h'.shutdowns[r] == h.shutdowns[r] + (if r in h.rooms.Values then 1 else 0)
  }

  lemma StopCounts(h: Hub)
    requires WellFormed(h) && CanStep(h, StopAll)
    ensures Stopped(h, Do(h, StopAll))
  {}

  // Hub.Shutdown dooms exactly when it finds a room that was shut down.
  lemma StopDooms(h: Hub, h': Hub)
    requires WellFormed(h) && TakenApart(h) && Stopped(h, h')
    ensures TakenApart(h') && (Doomed(h') <==> Doomed(h) || !FindsUnshut(h, StopAll))
  {
    StopShutsTwice(h, h');
    forall p: nat ensures ShutsAgain(h', p) <==> ShutsAgain(h, p) {
      if p < |h.removers| && h.removers[p].TookOut? { assert h.removers[p].r !in h.rooms.Values; }
    }
  }

  lemma StopShutsTwice(h: Hub, h': Hub)
    requires WellFormed(h) && Stopped(h, h')
    ensures ShutTwice(h') <==> ShutTwice(h) || !FindsUnshut(h, StopAll)
  {
    if !FindsUnshut(h, StopAll) {
      var id :| id in h.rooms && !Unshut(h, id);
      assert h.rooms[id] in h.rooms.Values && h'.shutdowns[h.rooms[id]] >= 2;
    }
    if ShutTwice(h) {
      var r: nat :| r < |h.shutdowns| && h.shutdowns[r] >= 2;
      assert h'.shutdowns[r] >= 2;
    }
    if ShutTwice(h') { TwiceWasShut(h, h'); }
  }

  lemma TwiceWasShut(h: Hub, h': Hub)
    requires WellFormed(h) && Stopped(h, h') && ShutTwice(h')
    ensures ShutTwice(h) || !FindsUnshut(h, StopAll)
  {
    var r: nat :| r < |h'.shutdowns| && h'.shutdowns[r] >= 2;
    if h.shutdowns[r] < 2 {
      assert r in h.rooms.Values;
      var id :| id in h.rooms && h.rooms[id] == r;
      assert !Unshut(h, id);
    }
  }

  lemma StepDooms(h: Hub, a: HubStep)
    requires WellFormed(h) && CanStep(h, a) && TakenApart(h)
    ensures TakenApart(Do(h, a)) && (Doomed(Do(h, a)) <==> Doomed(h) || !FindsUnshut(h, a))
  {
    match a
    case CreateRoom(j) => CreateDoomsNothing(h, j);
    case RemoveLock(p) => LockTakesApart(h, p); LockDooms(h, p);
    case RemoveShut(p) => ShutDoomsNothing(h, p);
    case StopAll => StopCounts(h); StopDooms(h, Do(h, StopAll));
    case _ => OthersKeepRemovals(h, a); SameRemovalsSameDoom(h, Do(h, a));
  }

  // Over every run of joins, removals and shutdowns: no room is shut down twice, or about to be, if and only if every
  // lock section of Hub.Remove and every Hub.Shutdown found only rooms that had not been shut down.
  lemma {:induction false} ShutOnceExactlyWhenFoundUnshut(h: Hub, steps: seq<HubStep>)
    requires WellFormed(h) && TakenApart(h) && LegalHub(h, steps)
    ensures TakenApart(RunHub(h, steps)) && WellFormed(RunHub(h, steps))
    ensures !Doomed(RunHub(h, steps)) <==> !Doomed(h) && AllFindUnshut(h, steps)
    decreases |steps|
  {
    if steps != [] {
      DoKeepsWellFormed(h, steps[0]);
      StepDooms(h, steps[0]);
      ShutOnceExactlyWhenFoundUnshut(Do(h, steps[0]), steps[1..]);
    }
  }

  predicate OnlyRemoveShuts(steps: seq<HubStep>) { forall i :: 0 <= i < |steps| ==> steps[i].RemoveShut? }

  lemma {:induction false} RemoveShutsFindUnshut(h: Hub, steps: seq<HubStep>)
    requires LegalHub(h, steps) && OnlyRemoveShuts(steps)
    ensures AllFindUnshut(h, steps)
    decreases |steps|
  {
    if steps != [] { RemoveShutsFindUnshut(Do(h, steps[0]), steps[1..]); }
  }

  // What `Doomed` means: the removals under way, going on alone, can bring some room to a second shutdown.
  lemma DoomedExactlyWhenRemovalsUnderWayShutTwice(h: Hub)
    requires WellFormed(h) && TakenApart(h) && Alive(h)
    ensures Doomed(h) <==> exists steps :: LegalHub(h, steps) && OnlyRemoveShuts(steps) && ShutTwice(RunHub(h, steps))
  {
    if ShutTwice(h) {
      assert LegalHub(h, []) && OnlyRemoveShuts([]) && RunHub(h, []) == h;
    } else if Doomed(h) {
      var p: nat :| ShutsAgain(h, p);
      ShutRuns(h, p);
      var steps := [RemoveShut(p)];
      assert RunHub(h, steps).shutdowns[h.removers[p].r] >= 2;
      assert LegalHub(h, steps) && OnlyRemoveShuts(steps) && ShutTwice(RunHub(h, steps));
    } else {
      forall steps | LegalHub(h, steps) && OnlyRemoveShuts(steps) ensures !ShutTwice(RunHub(h, steps)) {
        RemoveShutsFindUnshut(h, steps);
        ShutOnceExactlyWhenFoundUnshut(h, steps);
      }
    }
  }

  /** At most one Hub.Shutdown, and no lock section of Hub.Remove after it. */
  ghost predicate Orderly(h: Hub, steps: seq<HubStep>)
    requires LegalHub(h, steps)
    decreases |steps|
  {
    steps == [] || ((h.stopped ==> !steps[0].StopAll? && !steps[0].RemoveLock?) && Orderly(Do(h, steps[0]), steps[1..]))
  }

  /** Before Hub.Shutdown, no room in the map was shut down. */
  ghost predicate MapUnshut(h: Hub) { !h.stopped ==> forall id :: id in h.rooms ==> Unshut(h, id) }

  lemma StepKeepsMapUnshut(h: Hub, a: HubStep)
    requires WellFormed(h) && CanStep(h, a) && TakenApart(h) && MapUnshut(h)
    ensures MapUnshut(Do(h, a))
  {
    if !ShutdownStep(a) { OthersKeepRemovals(h, a); }
  }

  lemma {:induction false} OrderlyRunsFindUnshut(h: Hub, steps: seq<HubStep>)
    requires WellFormed(h) && TakenApart(h) && MapUnshut(h) && LegalHub(h, steps) && Orderly(h, steps)
    ensures AllFindUnshut(h, steps)
    decreases |steps|
  {
    if steps != [] {
      DoKeepsWellFormed(h, steps[0]);
      StepDooms(h, steps[0]);
      StepKeepsMapUnshut(h, steps[0]);
      OrderlyRunsFindUnshut(Do(h, steps[0]), steps[1..]);
    }
  }

  // However many Hub.Remove calls race, no room is shut down twice, because Remove takes the room out of the map under
  // the lock before it shuts it down.
  lemma EachRoomIsShutDownAtMostOnce(limit: nat, steps: seq<HubStep>, r: RoomRef)
    requires LegalHub(NewHub(limit), steps) && Orderly(NewHub(limit), steps)
    requires r < |RunHub(NewHub(limit), steps).shutdowns|
    ensures RunHub(NewHub(limit), steps).shutdowns[r] <= 1
  {
    OrderlyRunsFindUnshut(NewHub(limit), steps);
    ShutOnceExactlyWhenFoundUnshut(NewHub(limit), steps);
  }

  /** The steps can be taken, and lead to these shutdown counts. */
  ghost predicate Ends(h: Hub, steps: seq<HubStep>, counts: seq<nat>) {
    LegalHub(h, steps) && RunHub(h, steps).shutdowns == counts
  }

  lemma EndsAfter(h: Hub, a: HubStep, h1: Hub, rest: seq<HubStep>, counts: seq<nat>)
    requires WellFormed(h) && CanStep(h, a) && h1 == Do(h, a) && Ends(h1, rest, counts)
    ensures Ends(h, [a] + rest, counts)
  {
    assert ([a] + rest)[1..] == rest;
  }

  lemma EndsNow(h: Hub)
    requires Runnable(h)
    ensures Ends(h, [], h.shutdowns)
  {}

  lemma StaysAlive(h: Hub, a: HubStep)
    requires WellFormed(h) && CanStep(h, a) && (a.CallRemove? || a.RemoveLock? || a.RemoveShut? || a.StopAll?)
    ensures Alive(Do(h, a))
  {
    forall r: nat | r < |h.objs|
      ensures !h.objs[r].st.crashed && !ShutRoom(h.objs[r]).st.crashed
    {
      ShutKeepsRoom(h.objs[r]);
    }
  }

  lemma ShutCounts(h: Hub, p: nat)
    requires WellFormed(h) && CanStep(h, RemoveShut(p))
    ensures Do(h, RemoveShut(p)).shutdowns == h.shutdowns[h.removers[p].r := h.shutdowns[h.removers[p].r] + 1]
  {}

  // A room taken out of the map is shut down.
  lemma ShutRuns(h: Hub, p: nat)
    requires WellFormed(h) && Alive(h) && p < |h.removers| && h.removers[p].TookOut?
    ensures Ends(h, [RemoveShut(p)], h.shutdowns[h.removers[p].r := h.shutdowns[h.removers[p].r] + 1])
  {
    DoKeepsWellFormed(h, RemoveShut(p));
    ShutCounts(h, p);
    var h1 := Do(h, RemoveShut(p));
    EndsNow(h1);
    EndsAfter(h, RemoveShut(p), h1, [], h1.shutdowns);
    assert [RemoveShut(p)] + [] == [RemoveShut(p)];
  }

  /** The steps of removal p from its lock section on, when no other step comes in between. */
  function LockAndShut(p: nat, found: bool): seq<HubStep> {
    [RemoveLock(p)] + (if found then [RemoveShut(p)] else [])
  }

  /** The shutdown counts with one more for the room of an ID, if there is one. */
  function OneMore(h: Hub, id: Uuid): seq<nat> {
    if id in h.rooms && h.rooms[id] < |h.shutdowns| then h.shutdowns[h.rooms[id] := h.shutdowns[h.rooms[id]] + 1]
    else h.shutdowns
  }

  /** Whatever can be run from h1, with these counts in the end, can be run from h after step a. */
  ghost predicate Leads(h: Hub, a: HubStep, h1: Hub) {
    forall rest, counts :: Ends(h1, rest, counts) ==> Ends(h, [a] + rest, counts)
  }

  lemma LeadsTo(h: Hub, a: HubStep) returns (h1: Hub)
    requires WellFormed(h) && CanStep(h, a)
    ensures h1 == Do(h, a) && Leads(h, a, h1)
  {
    h1 := Do(h, a);
    forall rest, counts | Ends(h1, rest, counts) ensures Ends(h, [a] + rest, counts) {
      EndsAfter(h, a, h1, rest, counts);
    }
  }

  lemma LockTakesOut(h: Hub, p: nat) returns (h1: Hub)
    requires WellFormed(h) && CanStep(h, RemoveLock(p))
    ensures Leads(h, RemoveLock(p), h1)
    ensures WellFormed(h1) && Alive(h1) && h1.shutdowns == h.shutdowns && |h1.removers| == |h.removers|
    ensures var id := h.removers[p].id;
            h1.removers[p] == if id in h.rooms then TookOut(h.rooms[id]) else Finished
  {
    DoKeepsWellFormed(h, RemoveLock(p));
    StaysAlive(h, RemoveLock(p));
    h1 := LeadsTo(h, RemoveLock(p));
  }

  // The lock section of Hub.Remove and what follows it.
  lemma LockAndShutRuns(h: Hub, p: nat)
    requires WellFormed(h) && Alive(h) && p < |h.removers| && h.removers[p].Asked?
    ensures Ends(h, LockAndShut(p, h.removers[p].id in h.rooms), OneMore(h, h.removers[p].id))
  {
    var h1 := LockTakesOut(h, p);
    var rest, counts := if h.removers[p].id in h.rooms then [RemoveShut(p)] else [], OneMore(h, h.removers[p].id);
    RestRuns(h1, p, rest, counts);
    LeadsThen(h, RemoveLock(p), h1, rest, counts);
  }

  lemma LeadsThen(h: Hub, a: HubStep, h1: Hub, rest: seq<HubStep>, counts: seq<nat>)
    requires Leads(h, a, h1) && Ends(h1, rest, counts)
    ensures Ends(h, [a] + rest, counts)
  {}

  lemma RestRuns(h: Hub, p: nat, rest: seq<HubStep>, counts: seq<nat>)
    requires WellFormed(h) && Alive(h) && p < |h.removers|
    requires rest == if h.removers[p].TookOut? then [RemoveShut(p)] else []
    requires counts == if h.removers[p].TookOut? then
             h.shutdowns[h.removers[p].r := h.shutdowns[h.removers[p].r] + 1] else h.shutdowns
    ensures Ends(h, rest, counts)
  {
    if h.removers[p].TookOut? { ShutRuns(h, p); } else { EndsNow(h); }
  }

  /** A whole call of Hub.Remove with nothing in between. */
  function RemoveCall(h: Hub, id: Uuid): seq<HubStep> {
    [CallRemove(id)] + LockAndShut(|h.removers|, id in h.rooms)
  }

  lemma CallAsks(h: Hub, id: Uuid) returns (h1: Hub)
    requires WellFormed(h) && Alive(h)
    ensures Leads(h, CallRemove(id), h1)
    ensures WellFormed(h1) && Alive(h1) && h1.shutdowns == h.shutdowns && h1.rooms == h.rooms
    ensures |h1.removers| == |h.removers| + 1 && h1.removers[|h.removers|] == Asked(id)
  {
    DoKeepsWellFormed(h, CallRemove(id));
    StaysAlive(h, CallRemove(id));
    h1 := LeadsTo(h, CallRemove(id));
  }

  lemma RemoveRuns(h: Hub, id: Uuid)
    requires WellFormed(h) && Alive(h)
    ensures Ends(h, RemoveCall(h, id), OneMore(h, id))
  {
    var h1 := CallAsks(h, id);
    LockAndShutRuns(h1, |h.removers|);
    CallThenRest(h, h1, id, LockAndShut(|h.removers|, id in h.rooms));
  }

  lemma CallThenRest(h: Hub, h1: Hub, id: Uuid, rest: seq<HubStep>)
    requires Leads(h, CallRemove(id), h1) && Ends(h1, rest, OneMore(h1, id))
    requires h1.shutdowns == h.shutdowns && h1.rooms == h.rooms
    ensures Ends(h, [CallRemove(id)] + rest, OneMore(h, id))
  {
    LeadsThen(h, CallRemove(id), h1, rest, OneMore(h, id));
  }

  // Hub.Shutdown leaves the map as it was, so a call of Hub.Remove right after it shuts a room down a second time
  // exactly when that room is the one in the map under the given ID.
  lemma RemoveAfterStopShutsAgain(h: Hub, id: Uuid)
    requires WellFormed(h) && TakenApart(h) && !Doomed(h) && Alive(h) && FindsUnshut(h, StopAll)
    ensures var steps := [StopAll] + RemoveCall(h, id);
            && LegalHub(h, steps) && |RunHub(h, steps).shutdowns| == |h.shutdowns|
            && forall r: nat :: r < |h.shutdowns| ==>
                 (RunHub(h, steps).shutdowns[r] >= 2 <==> id in h.rooms && h.rooms[id] == r)
  {
    var h1 := StopShutsMapped(h);
    assert RemoveCall(h1, id) == RemoveCall(h, id);
    RemoveRuns(h1, id);
    LeadsThen(h, StopAll, h1, RemoveCall(h, id), OneMore(h1, id));
    if id in h.rooms { assert h.rooms[id] in h.rooms.Values; }
  }

  lemma StopShutsMapped(h: Hub) returns (h1: Hub)
    requires WellFormed(h) && Alive(h) && TakenApart(h) && !Doomed(h) && FindsUnshut(h, StopAll)
    ensures Leads(h, StopAll, h1)
    ensures WellFormed(h1) && Alive(h1) && h1.removers == h.removers && h1.rooms == h.rooms
            && |h1.shutdowns| == |h.shutdowns|
    ensures forall r: nat :: r < |h.shutdowns| ==>
              h1.shutdowns[r] <= 1 && (r in h.rooms.Values ==> h1.shutdowns[r] == 1)
  {
    DoKeepsWellFormed(h, StopAll);
    StaysAlive(h, StopAll);
    StopCounts(h);
    h1 := LeadsTo(h, StopAll);
    forall r: nat | r < |h.shutdowns| && r in h.rooms.Values ensures h.shutdowns[r] == 0 {
      var id :| id in h.rooms && h.rooms[id] == r;
      assert Unshut(h, id);
    }
  }

  // ---- the count of shutdowns and the room's own state agree ----

  ghost predicate CountsAgree(h: Hub) {
    |h.shutdowns| == |h.objs|
        && forall r: nat :: r < |h.objs| ==> (h.shutdowns[r] == 0 <==> h.objs[r].st.shut.NotCalled?)
  }

  lemma OnlyShutStartBegins(s: State, a: Step)
    requires Sane(s) && Enabled(s, a) && !a.ShutStart?
    ensures Apply(s, a).shut.NotCalled? == s.shut.NotCalled?
  {
    if DeliveryStep(a) { DeliveryKeepsShut(s, a); } else { OthersKeepShut(s, a); }
  }

  lemma DeliveryKeepsShut(s: State, a: Step)
    requires Sane(s) && Enabled(s, a) && DeliveryStep(a)
    ensures Apply(s, a).shut.NotCalled? == s.shut.NotCalled?
  {}

  lemma OthersKeepShut(s: State, a: Step)
    requires Sane(s) && Enabled(s, a) && !a.ShutStart? && !DeliveryStep(a)
    ensures Apply(s, a).shut.NotCalled? == s.shut.NotCalled?
  {}

  lemma StepKeepsCounts(h: Hub, a: HubStep)
    requires WellFormed(h) && CanStep(h, a) && CountsAgree(h)
    ensures CountsAgree(Do(h, a))
  {
    match a
    case RoomStep(r, act) => OnlyShutStartBegins(h.objs[r].st, act);
    case Enter(j) => OnlyShutStartBegins(h.objs[h.joiners[j].r].st, Connect(h.joiners[j].id));
    case RemoveShut(p) => ShutKeepsRoom(h.objs[h.removers[p].r]);
    case StopAll => StopKeepsCounts(h);
    case _ =>
  }

  lemma StopKeepsCounts(h: Hub)
    requires WellFormed(h) && CanStep(h, StopAll) && CountsAgree(h)
    ensures CountsAgree(Do(h, StopAll))
  {
    forall r: nat | r < |h.objs| ensures !ShutRoom(h.objs[r]).st.shut.NotCalled? { ShutKeepsRoom(h.objs[r]); }
  }

  lemma {:induction false} RunKeepsCounts(h: Hub, steps: seq<HubStep>)
    requires WellFormed(h) && LegalHub(h, steps) && CountsAgree(h)
    ensures CountsAgree(RunHub(h, steps))
    decreases |steps|
  {
    if steps != [] {
      DoKeepsWellFormed(h, steps[0]);
      StepKeepsCounts(h, steps[0]);
      RunKeepsCounts(Do(h, steps[0]), steps[1..]);
    }
  }

  // In every reachable state a room's shutdown has begun exactly when Room.Shutdown has been called on it.
  lemma ShutdownCountIsShutState(h: Hub)
    requires ReachableHub(h)
    ensures |h.shutdowns| == |h.objs|
    ensures forall r: nat :: r < |h.objs| ==> (h.shutdowns[r] == 0 <==> h.objs[r].st.shut.NotCalled?)
  {
    var steps :| LegalHub(NewHub(h.limit), steps) && RunHub(NewHub(h.limit), steps) == h;
    RunKeepsCounts(NewHub(h.limit), steps);
  }

  // ---- what a second shutdown meets ----

  // A removal that is not a second shutdown finds every worker channel of its room open, so closing them is safe.
  lemma FirstShutdownFindsChannelsOpen(h: Hub, p: nat)
    requires ReachableHub(h) && p < |h.removers| && h.removers[p].TookOut? && !ShutsAgain(h, p)
    ensures h.removers[p].r < |h.objs| && ClosedUpTo(h.objs[h.removers[p].r].st.workers, 0)
  {
    ReachableHubWellFormed(h);
    ShutdownCountIsShutState(h);
    assert RoomOK(h.objs[h.removers[p].r]);
    ReachableShutOK(h.objs[h.removers[p].r].st);
  }

  /** One room is in the map, under this ID; its object is the only one. */
  ghost predicate Hosts(h: Hub, o: RoomObj) { ReachableHub(h) && h.rooms == map[o.id := 0] && h.objs == [o] }

  ghost predicate SameCalls(h: Hub, h': Hub) {
    h'.removers == h.removers && h'.shutdowns == h.shutdowns && h'.stopped == h.stopped
  }

  lemma Arrives(h: Hub, id: Uuid) returns (h': Hub)
    requires ReachableHub(h) && Alive(h)
    ensures ReachableHub(h') && h' == h.(joiners := h.joiners + [Looking(id)])
  {
    HubStepStaysReachable(h, Arrive(id));
    h' := Do(h, Arrive(id));
  }

  lemma LooksUp(h: Hub, j: nat) returns (h': Hub)
    requires ReachableHub(h) && Alive(h) && j < |h.joiners| && h.joiners[j].Looking?
    ensures ReachableHub(h')
    ensures var id := h.joiners[j].id;
            h' == h.(joiners := h.joiners[j := if id in h.rooms then Got(id, h.rooms[id]) else Missing(id)])
  {
    HubStepStaysReachable(h, GetRoom(j));
    h' := Do(h, GetRoom(j));
  }

  lemma HostConnects(h: Hub, o: RoomObj) returns (h': Hub)
    requires Hosts(h, o) && Sane(o.st) && !o.st.crashed
    ensures Hosts(h', o.(st := Apply(o.st, Connect(o.id)))) && SameCalls(h, h')
  {
    h' := Arrives(h, o.id);
    h' := LooksUp(h', |h.joiners|);
    h' := EntersHost(h', |h.joiners|, o);
  }

  lemma EntersHost(h: Hub, j: nat, o: RoomObj) returns (h': Hub)
    requires Hosts(h, o) && Sane(o.st) && !o.st.crashed && j < |h.joiners| && h.joiners[j] == Got(o.id, 0)
    ensures Hosts(h', o.(st := Apply(o.st, Connect(o.id)))) && SameCalls(h, h')
  {
    HubStepStaysReachable(h, Enter(j));
    h' := Do(h, Enter(j));
  }

  lemma HostSteps(h: Hub, o: RoomObj, a: Step) returns (h': Hub)
    requires Hosts(h, o) && Sane(o.st) && Enabled(o.st, a) && !a.Connect? && !a.ShutStart?
    ensures Hosts(h', o.(st := Apply(o.st, a))) && SameCalls(h, h')
  {
    HubStepStaysReachable(h, RoomStep(0, a));
    h' := Do(h, RoomStep(0, a));
  }

  /** Only connections for this ID, and no shutdown. */
  predicate Ordinary(steps: seq<Step>, id: Uuid) {
    forall i :: 0 <= i < |steps| ==> !steps[i].ShutStart? && (steps[i].Connect? ==> steps[i].roomID == id)
  }

  /** Neither a connection nor the start of a shutdown. */
  predicate NoConnects(steps: seq<Step>) { forall i :: 0 <= i < |steps| ==> !steps[i].Connect? && !steps[i].ShutStart? }

  // Every ordinary run of a room is a run of the hub that holds it.
  lemma {:induction false} HostRuns(h: Hub, o: RoomObj, steps: seq<Step>) returns (h': Hub)
    requires Hosts(h, o) && Legal(o.st, steps) && Ordinary(steps, o.id)
    ensures Hosts(h', o.(st := Exec(o.st, steps))) && SameCalls(h, h')
    decreases |steps|
  {
    h' := h;
    if steps != [] {
      if steps[0].Connect? { h' := HostConnects(h, o); } else { h' := HostSteps(h, o, steps[0]); }
      h' := HostRuns(h', o.(st := Apply(o.st, steps[0])), steps[1..]);
    }
  }

  // A run that ends before any shutdown, with everybody connected to one ID, was an ordinary run.
  lemma {:induction false} RunWasOrdinary(s: State, steps: seq<Step>, id: Uuid)
    requires Shape(s) && Legal(s, steps)
    requires Exec(s, steps).shut.NotCalled?
             && forall c: nat :: c < |Exec(s, steps).clients| ==> Exec(s, steps).clients[c].roomID == id
    ensures Ordinary(steps, id) && s.shut.NotCalled?
    ensures forall c: nat :: c < |s.clients| ==> s.clients[c].roomID == id
    decreases |steps|
  {
    if steps != [] {
      StepKeepsShape(s, steps[0]);
      RunWasOrdinary(Apply(s, steps[0]), steps[1..], id);
      StepWasOrdinary(s, steps[0], id);
      assert steps == [steps[0]] + steps[1..];
    }
  }

  lemma StepWasOrdinary(s: State, a: Step, id: Uuid)
    requires Shape(s) && Sane(s) && Enabled(s, a) && Apply(s, a).shut.NotCalled?
    requires forall c: nat :: c < |Apply(s, a).clients| ==> Apply(s, a).clients[c].roomID == id
    ensures !a.ShutStart? && (a.Connect? ==> a.roomID == id) && s.shut.NotCalled?
    ensures forall c: nat :: c < |s.clients| ==> s.clients[c].roomID == id
  {
    if !a.ShutStart? { OnlyShutStartBegins(s, a); }
    if a.Connect? {
      assert Apply(s, a).clients[|s.clients|].roomID == a.roomID;
      assert Apply(s, a).clients[..|s.clients|] == s.clients;
    } else {
      KeepsRoomIDs(s, a);
    }
  }

  lemma KeepsRoomIDs(s: State, a: Step)
    requires Shape(s) && Sane(s) && Enabled(s, a) && !a.Connect?
    ensures |Apply(s, a).clients| == |s.clients|
    ensures forall c: nat :: c < |s.clients| ==> Apply(s, a).clients[c].roomID == s.clients[c].roomID
  {
    NoNewClients(s, a);
    if !MembershipStep(a) { OtherStepsKeepMembership(s, a); }
  }

  // Whatever a room with one ID can come to before its shutdown, it can come to in a hub.
  lemma RoomIsHosted(s: State, id: Uuid) returns (h: Hub)
    requires Reachable(s) && s.shut.NotCalled? && forall c: nat :: c < |s.clients| ==> s.clients[c].roomID == id
    ensures Hosts(h, RoomObj(id, s)) && h.removers == [] && h.shutdowns == [0]
  {
    var steps :| Legal(Init(s.limit), steps) && Exec(Init(s.limit), steps) == s;
    RunWasOrdinary(Init(s.limit), steps, id);
    h := EmptyRoomIsHosted(s.limit, id);
    h := HostRuns(h, RoomObj(id, Init(s.limit)), steps);
  }

  lemma EmptyRoomIsHosted(limit: nat, id: Uuid) returns (h: Hub)
    ensures Hosts(h, RoomObj(id, Init(limit))) && h.removers == [] && h.shutdowns == [0]
  {
    HubStart(limit);
    h := JoinMisses(NewHub(limit), id);
    h := JoinMakes(h, id);
  }

  lemma JoinMisses(h: Hub, id: Uuid) returns (h': Hub)
    requires ReachableHub(h) && h == NewHub(h.limit)
    ensures ReachableHub(h') && h' == h.(joiners := [Missing(id)])
  {
    h' := Arrives(h, id);
    h' := LooksUp(h', 0);
  }

  lemma JoinMakes(h: Hub, id: Uuid) returns (h': Hub)
    requires ReachableHub(h) && h == NewHub(h.limit).(joiners := [Missing(id)])
    ensures Hosts(h', RoomObj(id, Init(h.limit))) && h'.removers == [] && h'.shutdowns == [0]
  {
    HubStepStaysReachable(h, CreateRoom(0));
    h' := Do(h, CreateRoom(0));
  }

  // The drained pool's shutdown returns.
  lemma DrainedReturns(s: State) returns (steps: seq<Step>)
    requires Reachable(s) && !s.crashed && s.shut.Waiting? && OpenTargets(s)
    ensures Legal(s, steps) && NoConnects(steps) && !Exec(s, steps).crashed && Exec(s, steps).shut == Returned
    ensures Exec(s, steps).hasPool && ClosedUpTo(Exec(s, steps).workers, WORKER_COUNT)
  {
    EveryReachableStateIsWellFormed(s);
    ReachableShutOK(s);
    var drains := ShutdownCanReturn(s);
    RunKeepsShape(s, drains);
    RunShutOK(s, drains);
    PoolIsForever(s, drains);
    var s2 := Exec(s, drains);
    StepKeepsShape(s2, ShutReturn);
    ShapeIsSane(Apply(s2, ShutReturn));
    ExecOne(s2, ShutReturn, []);
    steps := drains + ([ShutReturn] + []);
    ExecAppend(s, drains, [ShutReturn] + []);
  }

  // A pool whose targets are connected is shut down to the end.
  lemma OpenPoolShutsDown(s: State) returns (steps: seq<Step>)
    requires Reachable(s) && !s.crashed && s.shut == Closing(0) && OpenTargets(s)
    ensures Legal(s, steps) && NoConnects(steps) && !Exec(s, steps).crashed && Exec(s, steps).shut == Returned
    ensures Exec(s, steps).hasPool && ClosedUpTo(Exec(s, steps).workers, WORKER_COUNT)
  {
    EveryReachableStateIsWellFormed(s);
    var closes := CloseAll(s);
    var s1 := Exec(s, closes);
    OnlyClosingKeepsOpen(s, s1);
    var rest := DrainedReturns(s1);
    ExecAppend(s, closes, rest);
    steps := closes + rest;
  }

  lemma OnlyClosingKeepsOpen(s: State, s': State)
    requires OpenTargets(s) && OnlyClosing(s, s')
    ensures OpenTargets(s')
  {}

  lemma StopOne(h: Hub, o: RoomObj) returns (h': Hub)
    requires Hosts(h, o) && o.st.shut.NotCalled? && o.st.hasPool && !o.st.crashed && h.shutdowns == [0]
             && Reachable(o.st)
    ensures Hosts(h', o.(st := o.st.(shut := Closing(0)))) && h'.removers == h.removers && h'.shutdowns == [1]
            && h'.stopped
  {
    EveryReachableStateIsWellFormed(o.st);
    HubStepStaysReachable(h, StopAll);
    h' := Do(h, StopAll);
    assert h.rooms[o.id] == 0 && 0 in h.rooms.Values;
    assert ShutRoom(o) == o.(st := o.st.(shut := Closing(0)));
  }

  lemma RemoveTakesOut(h: Hub, o: RoomObj) returns (h': Hub)
    requires Hosts(h, o) && h.removers == [] && !o.st.crashed
    ensures ReachableHub(h') && h' == h.(rooms := map[], removers := [TookOut(0)])
  {
    h' := RemoveIsCalled(h, o.id);
    HubStepStaysReachable(h', RemoveLock(0));
    h' := Do(h', RemoveLock(0));
    assert h.rooms - {o.id} == map[];
  }

  lemma RemoveIsCalled(h: Hub, id: Uuid) returns (h': Hub)
    requires ReachableHub(h) && Alive(h)
    ensures ReachableHub(h') && h' == h.(removers := h.removers + [Asked(id)])
  {
    HubStepStaysReachable(h, CallRemove(id));
    h' := Do(h, CallRemove(id));
  }

  // A room whose pool's targets are connected, shut down by Hub.Shutdown and then taken out by Hub.Remove.
  lemma StopThenTakeOut(h: Hub, s: State, id: Uuid) returns (h': Hub, s': State)
    requires Hosts(h, RoomObj(id, s)) && Reachable(s) && s.shut.NotCalled? && s.hasPool && !s.crashed && OpenTargets(s)
    requires h.removers == [] && h.shutdowns == [0]
    ensures ReachableHub(h') && h'.stopped && h'.removers == [TookOut(0)] && h'.shutdowns == [1]
    ensures h'.objs == [RoomObj(id, s')] && s'.shut == Returned && s'.hasPool && !s'.crashed
            && ClosedUpTo(s'.workers, WORKER_COUNT)
  {
    h' := StopOne(h, RoomObj(id, s));
    StepStaysReachable(s, ShutStart);
    var s1 := s.(shut := Closing(0));
    assert s1 == Apply(s, ShutStart);
    var steps := OpenPoolShutsDown(s1);
    h' := HostRuns(h', RoomObj(id, s1), steps);
    s' := Exec(s1, steps);
    h' := RemoveTakesOut(h', RoomObj(id, s'));
  }

  lemma RoomWithPool() returns (s: State)
    ensures Reachable(s) && s.shut.NotCalled? && s.hasPool && !s.crashed && OpenTargets(s)
    ensures forall c: nat :: c < |s.clients| ==> s.clients[c].roomID == 0
  {
    s := PooledRoom(9);
    assert forall c: nat :: c < |s.clients| ==> Ready(s.clients[c]);
  }

  // The failing run: Hub.Shutdown shuts a room with a pool down and returns, Hub.Remove then takes the room out of the
  // map, and its own shutdown of it starts with closing a channel that is closed.
  lemma SecondShutdownIsReachable() returns (h: Hub)
    ensures ReachableHub(h) && Alive(h) && h.stopped && h.removers == [TookOut(0)] && h.shutdowns == [1]
    ensures |h.objs| == 1 && h.objs[0].st.shut == Returned && h.objs[0].st.hasPool
            && ClosedUpTo(h.objs[0].st.workers, WORKER_COUNT)
    ensures ShutsAgain(h, 0)
  {
    var s := RoomWithPool();
    h := RoomIsHosted(s, 0);
    var s';
    h, s' := StopThenTakeOut(h, s, 0);
  }
}
