// The hub: looking rooms up, making them on demand, taking them out, and shutting them down, with any number of
// concurrent joins and removals over the rooms' own protocol.
module HubProtocol {
  import opened Basics
  import opened RoomProtocol
  import opened RoomInvariants
  import opened Accounting
  import opened Membership

  type RoomRef = nat

  datatype RoomObj = RoomObj(id: Uuid, st: State)

  /** A connection on its way into a room: GetRoom, then CreateRoom if that failed, then the room's client list. */
  datatype Joiner =
    | Looking(id: Uuid)
    | Missing(id: Uuid)
    | Got(id: Uuid, r: RoomRef)
    | Inside(id: Uuid, r: RoomRef, c: Cid)

  /** A call of Hub.Remove: its lock section, then Room.Shutdown outside the lock. */
  datatype Remover = Asked(id: Uuid) | TookOut(r: RoomRef) | Finished

  datatype Hub = Hub(
    limit: nat,
    rooms: map<Uuid, RoomRef>,
    objs: seq<RoomObj>,
    joiners: seq<Joiner>,
    removers: seq<Remover>,
    shutdowns: seq<nat>,   // history: times Room.Shutdown was called on each room object
    stopped: bool          // history: Hub.Shutdown has run
  )

  function NewHub(limit: nat): Hub { Hub(limit, map[], [], [], [], [], false) }

  datatype HubStep =
    | Arrive(id: Uuid)
    | GetRoom(j: nat)
    | CreateRoom(j: nat)
    | Enter(j: nat)
    | RoomStep(r: RoomRef, a: Step)
    | CallRemove(id: Uuid)
    | RemoveLock(p: nat)
    | RemoveShut(p: nat)
    | StopAll

  /** A room object is in a reachable state of the room protocol, and all its clients asked for its ID. */
  ghost predicate RoomOK(o: RoomObj) {
    Sane(o.st) && Reachable(o.st) && forall c: nat :: c < |o.st.clients| ==> o.st.clients[c].roomID == o.id
  }

  ghost predicate WellFormed(h: Hub) {
    && |h.shutdowns| == |h.objs|
    && (forall id :: id in h.rooms ==> h.rooms[id] < |h.objs| && h.objs[h.rooms[id]].id == id)
    && (forall r: nat :: r < |h.objs| ==> RoomOK(h.objs[r]))
    && (forall j: nat :: j < |h.joiners| && (h.joiners[j].Got? || h.joiners[j].Inside?) ==>
          h.joiners[j].r < |h.objs| && h.objs[h.joiners[j].r].id == h.joiners[j].id)
    && (forall j: nat :: j < |h.joiners| && h.joiners[j].Inside? ==>
         h.joiners[j].c < |h.objs[h.joiners[j].r].st.clients|)
    && (forall p: nat :: p < |h.removers| && h.removers[p].TookOut? ==> h.removers[p].r < |h.objs|)
  }

  /** Enough of well-formedness for every step to be defined. */
  predicate Runnable(h: Hub) {
    && (forall r: nat :: r < |h.objs| ==> Sane(h.objs[r].st))
    && |h.shutdowns| == |h.objs|
    && (forall p: nat :: p < |h.removers| && h.removers[p].TookOut? ==> h.removers[p].r < |h.objs|)
  }

  /** No worker has panicked, which would have ended the process. */
  predicate Alive(h: Hub) { forall r: nat :: r < |h.objs| ==> !h.objs[r].st.crashed }

  /** Room.Shutdown starts the room's shutdown, the first time it is called. */
  function ShutRoom(o: RoomObj): RoomObj
    requires Sane(o.st)
  {
    if Enabled(o.st, ShutStart) then o.(st := Apply(o.st, ShutStart)) else o
  }

  predicate CanStep(h: Hub, a: HubStep) {
    && Alive(h)
    && match a
    case Arrive(_) => true
    case GetRoom(j) => j < |h.joiners| && h.joiners[j].Looking?
    case CreateRoom(j) => j < |h.joiners| && h.joiners[j].Missing?
    case Enter(j) => j < |h.joiners| && h.joiners[j].Got? && h.joiners[j].r < |h.objs|
        && Enabled(h.objs[h.joiners[j].r].st, Connect(h.joiners[j].id))
    case RoomStep(r, act) => r < |h.objs| && !act.Connect? && !act.ShutStart? && Enabled(h.objs[r].st, act)
    case CallRemove(_) => true
    case RemoveLock(p) => p < |h.removers| && h.removers[p].Asked?
    case RemoveShut(p) => p < |h.removers| && h.removers[p].TookOut?
    case StopAll => true
  }

  function Do(h: Hub, a: HubStep): Hub
    requires Runnable(h) && CanStep(h, a)
  {
    match a
    case Arrive(id) => h.(joiners := h.joiners + [Looking(id)])
    case GetRoom(j) =>
      var id := h.joiners[j].id;
      h.(joiners := h.joiners[j := if id in h.rooms then Got(id, h.rooms[id]) else Missing(id)])
    case CreateRoom(j) =>
      var id, r := h.joiners[j].id, |h.objs|;
      h.(rooms := h.rooms[id := r], objs := h.objs + [RoomObj(id, Init(h.limit))], shutdowns := h.shutdowns + [0],
         joiners := h.joiners[j := Got(id, r)])
    case Enter(j) =>
      var Got(id, r) := h.joiners[j];
      var st := h.objs[r].st;
      h.(objs := h.objs[r := h.objs[r].(st := Apply(st, Connect(id)))],
         joiners := h.joiners[j := Inside(id, r, |st.clients|)])
    case RoomStep(r, act) => h.(objs := h.objs[r := h.objs[r].(st := Apply(h.objs[r].st, act))])
    case CallRemove(id) => h.(removers := h.removers + [Asked(id)])
    case RemoveLock(p) =>
      var id := h.removers[p].id;
      h.(rooms := h.rooms - {id}, removers := h.removers[p := if id in h.rooms then TookOut(h.rooms[id]) else Finished])
    case RemoveShut(p) =>
      var r := h.removers[p].r;
      h.(objs := h.objs[r := ShutRoom(h.objs[r])], shutdowns := h.shutdowns[r := h.shutdowns[r] + 1],
         removers := h.removers[p := Finished])
    case StopAll =>
      h.(objs := seq(|h.objs|, r requires 0 <= r < |h.objs| =>
           if r in h.rooms.Values then ShutRoom(h.objs[r]) else h.objs[r]),
         shutdowns := seq(|h.objs|, r requires 0 <= r < |h.objs| =>
           h.shutdowns[r] + (if r in h.rooms.Values then 1 else 0)),
         stopped := true)
  }

  lemma RoomIDIsConstant(s: State, a: Step, id: Uuid)
    requires Sane(s) && Enabled(s, a) && !a.Connect?
    requires forall c: nat :: c < |s.clients| ==> s.clients[c].roomID == id
    ensures forall c: nat :: c < |Apply(s, a).clients| ==> Apply(s, a).clients[c].roomID == id
    ensures |s.clients| <= |Apply(s, a).clients|
  {
    if !MembershipStep(a) {
      OtherStepsKeepMembership(s, a);
      NoNewClients(s, a);
    }
  }

  predicate DeliveryStep(a: Step) {
    a.Snapshot? || a.Deliver? || a.Enqueue? || a.Take? || a.Send? || a.Exit? || a.ShutClose?
  }

  lemma NoNewClients(s: State, a: Step)
    requires Sane(s) && Enabled(s, a) && !a.Connect?
    ensures |Apply(s, a).clients| == |s.clients|
  {
    if DeliveryStep(a) { DeliveryAddsNobody(s, a); } else { OthersAddNobody(s, a); }
  }

  lemma DeliveryAddsNobody(s: State, a: Step)
    requires Sane(s) && Enabled(s, a) && DeliveryStep(a)
    ensures |Apply(s, a).clients| == |s.clients|
  {
    if a.Snapshot? || a.Deliver? || a.Enqueue? { LoopsAddNobody(s, a); } else { WorkersAddNobody(s, a); }
  }

  lemma LoopsAddNobody(s: State, a: Step)
    requires Sane(s) && Enabled(s, a) && (a.Snapshot? || a.Deliver? || a.Enqueue?)
    ensures |Apply(s, a).clients| == |s.clients|
  {}

  lemma WorkersAddNobody(s: State, a: Step)
    requires Sane(s) && Enabled(s, a) && (a.Take? || a.Send? || a.Exit? || a.ShutClose?)
    ensures |Apply(s, a).clients| == |s.clients|
  {}

  lemma OthersAddNobody(s: State, a: Step)
    requires Sane(s) && Enabled(s, a) && !a.Connect? && !DeliveryStep(a)
    ensures |Apply(s, a).clients| == |s.clients|
  {}

  lemma RoomMoves(o: RoomObj, a: Step)
    requires RoomOK(o) && Enabled(o.st, a) && (a.Connect? ==> a.roomID == o.id)
    ensures RoomOK(o.(st := Apply(o.st, a))) && |o.st.clients| <= |Apply(o.st, a).clients|
  {
    StepStaysReachable(o.st, a);
    EveryReachableStateIsWellFormed(Apply(o.st, a));
    if !a.Connect? { RoomIDIsConstant(o.st, a, o.id); }
  }

  lemma EnterKeeps(h: Hub, j: nat)
    requires WellFormed(h) && CanStep(h, Enter(j))
    ensures WellFormed(Do(h, Enter(j)))
  {
    RoomMoves(h.objs[h.joiners[j].r], Connect(h.joiners[j].id));
  }

  lemma RoomStepKeeps(h: Hub, r: RoomRef, act: Step)
    requires WellFormed(h) && CanStep(h, RoomStep(r, act))
    ensures WellFormed(Do(h, RoomStep(r, act)))
  {
    RoomMoves(h.objs[r], act);
  }

  lemma CreateKeeps(h: Hub, j: nat)
    requires WellFormed(h) && CanStep(h, CreateRoom(j))
    ensures WellFormed(Do(h, CreateRoom(j)))
  {
    InitReachable(h.limit);
  }

  lemma ShutKeepsRoom(o: RoomObj)
    requires RoomOK(o)
    ensures RoomOK(ShutRoom(o)) && ShutRoom(o).id == o.id && |ShutRoom(o).st.clients| == |o.st.clients|
    ensures !o.st.crashed ==> !ShutRoom(o).st.shut.NotCalled? && !ShutRoom(o).st.crashed
  {
    if Enabled(o.st, ShutStart) { RoomMoves(o, ShutStart); }
  }

  lemma RemoveShutKeeps(h: Hub, p: nat)
    requires WellFormed(h) && CanStep(h, RemoveShut(p))
    ensures WellFormed(Do(h, RemoveShut(p)))
  {
    ShutKeepsRoom(h.objs[h.removers[p].r]);
  }

  lemma StopKeeps(h: Hub)
    requires WellFormed(h) && CanStep(h, StopAll)
    ensures WellFormed(Do(h, StopAll))
  {
    forall r: nat | r < |h.objs| ensures RoomOK(h.objs[r]) && RoomOK(ShutRoom(h.objs[r]))
        && ShutRoom(h.objs[r]).id == h.objs[r].id
      ensures |ShutRoom(h.objs[r]).st.clients| == |h.objs[r].st.clients|
    {
      ShutKeepsRoom(h.objs[r]);
    }
  }

  lemma OtherKeeps(h: Hub, a: HubStep)
    requires WellFormed(h) && CanStep(h, a) && (a.Arrive? || a.GetRoom? || a.CallRemove? || a.RemoveLock?)
    ensures WellFormed(Do(h, a))
  {}

  lemma DoKeepsWellFormed(h: Hub, a: HubStep)
    requires WellFormed(h) && CanStep(h, a)
    ensures WellFormed(Do(h, a))
  {
    match a
    case Enter(j) => EnterKeeps(h, j);
    case RoomStep(r, act) => RoomStepKeeps(h, r, act);
    case CreateRoom(j) => CreateKeeps(h, j);
    case RemoveShut(p) => RemoveShutKeeps(h, p);
    case StopAll => StopKeeps(h);
    case _ => OtherKeeps(h, a);
  }

  ghost predicate LegalHub(h: Hub, steps: seq<HubStep>)
    decreases |steps|
  {
    Runnable(h) && (steps == [] || (CanStep(h, steps[0]) && LegalHub(Do(h, steps[0]), steps[1..])))
  }

  ghost function RunHub(h: Hub, steps: seq<HubStep>): (r: Hub)
    requires LegalHub(h, steps)
    ensures Runnable(r)
    decreases |steps|
  {
    if steps == [] then h else RunHub(Do(h, steps[0]), steps[1..])
  }

  lemma {:induction false} RunStaysWellFormed(h: Hub, steps: seq<HubStep>)
    requires WellFormed(h) && LegalHub(h, steps)
    ensures WellFormed(RunHub(h, steps))
    decreases |steps|
  {
    if steps != [] { DoKeepsWellFormed(h, steps[0]); RunStaysWellFormed(Do(h, steps[0]), steps[1..]); }
  }

  // Well-formedness never stands in the way of a step: a legal run can be continued by any step that can be taken.
  lemma {:induction false} AnyStepExtendsARun(h: Hub, steps: seq<HubStep>, a: HubStep)
    requires WellFormed(h) && LegalHub(h, steps) && CanStep(RunHub(h, steps), a)
    ensures LegalHub(h, steps + [a]) && RunHub(h, steps + [a]) == Do(RunHub(h, steps), a)
    decreases |steps|
  {
    if steps == [] {
      DoKeepsWellFormed(h, a);
      assert [a][1..] == [] && LegalHub(Do(h, a), []);
      assert [] + [a] == [a];
    } else {
      assert (steps + [a])[1..] == steps[1..] + [a] && (steps + [a])[0] == steps[0];
      DoKeepsWellFormed(h, steps[0]);
      AnyStepExtendsARun(Do(h, steps[0]), steps[1..], a);
    }
  }

  /** Some interleaving of joins, removals and room steps leads from an empty hub to h. */
  ghost predicate ReachableHub(h: Hub) {
    exists steps :: LegalHub(NewHub(h.limit), steps) && RunHub(NewHub(h.limit), steps) == h
  }

  lemma HubStart(limit: nat)
    ensures ReachableHub(NewHub(limit))
  {
    assert LegalHub(NewHub(limit), []) && RunHub(NewHub(limit), []) == NewHub(limit);
  }

  lemma ReachableHubWellFormed(h: Hub)
    requires ReachableHub(h)
    ensures WellFormed(h)
  {
    var steps :| LegalHub(NewHub(h.limit), steps) && RunHub(NewHub(h.limit), steps) == h;
    RunStaysWellFormed(NewHub(h.limit), steps);
  }

  lemma HubStepStaysReachable(h: Hub, a: HubStep)
    requires ReachableHub(h) && CanStep(h, a)
    ensures WellFormed(h) && ReachableHub(Do(h, a))
  {
    var steps :| LegalHub(NewHub(h.limit), steps) && RunHub(NewHub(h.limit), steps) == h;
    ReachableHubWellFormed(h);
    AnyStepExtendsARun(NewHub(h.limit), steps, a);
    LimitStays(h, a);
    assert RunHub(NewHub(h.limit), steps + [a]) == Do(h, a);
  }

  lemma LimitStays(h: Hub, a: HubStep)
    requires WellFormed(h) && CanStep(h, a)
    ensures Do(h, a).limit == h.limit
  {}

  // Isolation without echo: whatever joins, removals and broadcasts interleave, a broadcast in a client's buffer was
  // sent by a different client that had asked for the same room ID, even when two room objects serve that ID.
  lemma RoomsAreIsolated(h: Hub, r: RoomRef, c: Cid, b: nat)
    requires ReachableHub(h) && r < |h.objs| && At(h.objs[r].st, c) && b in LiveNumbers(h.objs[r].st.clients[c].hist)
    ensures var st := h.objs[r].st;
            b < |st.log| && At(st, st.log[b].sender) && st.log[b].sender != c
                && st.clients[st.log[b].sender].roomID == st.clients[c].roomID == h.objs[r].id
  {
    ReachableHubWellFormed(h);
    assert RoomOK(h.objs[r]);
    NoEchoNoRepeat(h.objs[r].st, c, b);
  }

  // ---- one room object per ID ----

  ghost predicate OnePerID(h: Hub) {
    forall r1: nat, r2: nat :: r1 < |h.objs| && r2 < |h.objs| && h.objs[r1].id == h.objs[r2].id ==> r1 == r2
  }

  /** No room object has this ID. */
  ghost predicate Unused(h: Hub, id: Uuid) { forall r: nat :: r < |h.objs| ==> h.objs[r].id != id }

  // Only creating a room adds an object, with the joiner's ID.
  lemma IDsGrow(h: Hub, a: HubStep)
    requires WellFormed(h) && CanStep(h, a)
    ensures |Do(h, a).objs| == |h.objs| + (if a.CreateRoom? then 1 else 0)
    ensures forall r: nat :: r < |h.objs| ==> Do(h, a).objs[r].id == h.objs[r].id
    ensures a.CreateRoom? ==> Do(h, a).objs[|h.objs|].id == h.joiners[a.j].id
  {
    forall r: nat | r < |h.objs| ensures ShutRoom(h.objs[r]).id == h.objs[r].id { ShutKeepsRoom(h.objs[r]); }
  }

  lemma SplitStaysSplit(h: Hub, a: HubStep)
    requires WellFormed(h) && CanStep(h, a) && !OnePerID(h)
    ensures !OnePerID(Do(h, a))
  {
    IDsGrow(h, a);
    var r1: nat, r2: nat :| r1 < |h.objs| && r2 < |h.objs| && h.objs[r1].id == h.objs[r2].id && r1 != r2;
    assert Do(h, a).objs[r1].id == Do(h, a).objs[r2].id;
  }

  lemma CreateSplitsExactlyWhenUsed(h: Hub, a: HubStep)
    requires WellFormed(h) && CanStep(h, a) && OnePerID(h)
    ensures OnePerID(Do(h, a)) <==> (a.CreateRoom? ==> Unused(h, h.joiners[a.j].id))
  {
    IDsGrow(h, a);
    if a.CreateRoom? && !Unused(h, h.joiners[a.j].id) {
      var r: nat :| r < |h.objs| && h.objs[r].id == h.joiners[a.j].id;
      assert Do(h, a).objs[r].id == Do(h, a).objs[|h.objs|].id;
    }
  }

  /** Every room created in the run gets an ID that no object has. */
  ghost predicate CreatesUnused(h: Hub, steps: seq<HubStep>)
    requires LegalHub(h, steps)
    decreases |steps|
  {
    steps == [] || ((steps[0].CreateRoom? ==> Unused(h, h.joiners[steps[0].j].id))
        && CreatesUnused(Do(h, steps[0]), steps[1..]))
  }

  lemma {:induction false} SplitForGood(h: Hub, steps: seq<HubStep>)
    requires WellFormed(h) && LegalHub(h, steps) && !OnePerID(h)
    ensures !OnePerID(RunHub(h, steps))
    decreases |steps|
  {
    if steps != [] {
      DoKeepsWellFormed(h, steps[0]);
      SplitStaysSplit(h, steps[0]);
      SplitForGood(Do(h, steps[0]), steps[1..]);
    }
  }

  // Over every run, removals included: there is one room object per ID if and only if every room was created for an ID
  // that no object had at that moment.
  lemma {:induction false} OneRoomPerIDExactlyWhenCreatesAreUnused(h: Hub, steps: seq<HubStep>)
    requires WellFormed(h) && LegalHub(h, steps) && OnePerID(h)
    ensures OnePerID(RunHub(h, steps)) <==> CreatesUnused(h, steps)
    decreases |steps|
  {
    if steps != [] {
      DoKeepsWellFormed(h, steps[0]);
      CreateSplitsExactlyWhenUsed(h, steps[0]);
      if OnePerID(Do(h, steps[0])) {
        OneRoomPerIDExactlyWhenCreatesAreUnused(Do(h, steps[0]), steps[1..]);
      } else {
        SplitForGood(Do(h, steps[0]), steps[1..]);
      }
    }
  }

  /** Every room object's ID is in the map. */
  ghost predicate Mapped(h: Hub) { forall r: nat :: r < |h.objs| ==> h.objs[r].id in h.rooms }

  predicate NoRemovals(steps: seq<HubStep>) { forall i :: 0 <= i < |steps| ==> !steps[i].RemoveLock? }

  /** Every room created in the run gets an ID that is not in the map: what a second look under the lock would check. */
  ghost predicate CreatesRechecked(h: Hub, steps: seq<HubStep>)
    requires LegalHub(h, steps)
    decreases |steps|
  {
    steps == [] || ((steps[0].CreateRoom? ==> h.joiners[steps[0].j].id !in h.rooms)
        && CreatesRechecked(Do(h, steps[0]), steps[1..]))
  }

  lemma StaysMapped(h: Hub, a: HubStep)
    requires WellFormed(h) && CanStep(h, a) && Mapped(h) && !a.RemoveLock?
    ensures Mapped(Do(h, a))
  {
    IDsGrow(h, a);
    MapOnlyGrows(h, a);
  }

  lemma MapOnlyGrows(h: Hub, a: HubStep)
    requires WellFormed(h) && CanStep(h, a) && !a.RemoveLock?
    ensures Do(h, a).rooms.Keys == h.rooms.Keys + (if a.CreateRoom? then {h.joiners[a.j].id} else {})
  {}

  lemma {:induction false} RecheckedIsUnused(h: Hub, steps: seq<HubStep>)
    requires WellFormed(h) && LegalHub(h, steps) && Mapped(h) && NoRemovals(steps)
    ensures CreatesRechecked(h, steps) <==> CreatesUnused(h, steps)
    decreases |steps|
  {
    if steps != [] {
      DoKeepsWellFormed(h, steps[0]);
      StaysMapped(h, steps[0]);
      assert forall id :: id in h.rooms ==> h.objs[h.rooms[id]].id == id;
      RecheckedIsUnused(Do(h, steps[0]), steps[1..]);
    }
  }

  // Over every run without removals: there is one room object per ID if and only if every room was created for an ID
  // that was not in the map at that moment.
  lemma OneRoomPerIDExactlyWhenMapIsRechecked(h: Hub, steps: seq<HubStep>)
    requires WellFormed(h) && LegalHub(h, steps) && OnePerID(h) && Mapped(h) && NoRemovals(steps)
    ensures OnePerID(RunHub(h, steps)) <==> CreatesRechecked(h, steps)
  {
    OneRoomPerIDExactlyWhenCreatesAreUnused(h, steps);
    RecheckedIsUnused(h, steps);
  }

  /** A join that found no room is still right about that. */
  ghost predicate MissingIsMissing(h: Hub) {
    forall j: nat :: j < |h.joiners| && h.joiners[j].Missing? ==> h.joiners[j].id !in h.rooms
  }

  /** A room is only created while no other join of its ID is between its lookup and its creation. */
  ghost predicate SerialJoins(h: Hub, steps: seq<HubStep>)
    requires LegalHub(h, steps)
    decreases |steps|
  {
    steps == [] ||
    (&& (steps[0].CreateRoom? ==> forall k: nat :: k < |h.joiners| && k != steps[0].j && h.joiners[k].Missing? ==>
                                    h.joiners[k].id != h.joiners[steps[0].j].id)
     && SerialJoins(Do(h, steps[0]), steps[1..]))
  }

  lemma StaysMissing(h: Hub, a: HubStep)
    requires WellFormed(h) && CanStep(h, a) && MissingIsMissing(h)
    requires a.CreateRoom? ==>
             forall k: nat :: k < |h.joiners| && k != a.j && h.joiners[k].Missing? ==>
                 h.joiners[k].id != h.joiners[a.j].id
    ensures MissingIsMissing(Do(h, a))
  {}

  lemma {:induction false} SerialIsRechecked(h: Hub, steps: seq<HubStep>)
    requires WellFormed(h) && LegalHub(h, steps) && MissingIsMissing(h) && SerialJoins(h, steps)
    ensures CreatesRechecked(h, steps)
    decreases |steps|
  {
    if steps != [] {
      DoKeepsWellFormed(h, steps[0]);
      StaysMissing(h, steps[0]);
      SerialIsRechecked(Do(h, steps[0]), steps[1..]);
    }
  }

  // So joins that do not overlap with another join of the same ID between lookup and creation share one room object,
  // whatever else interleaves.
  lemma SerialJoinsShareRooms(limit: nat, steps: seq<HubStep>)
    requires LegalHub(NewHub(limit), steps) && NoRemovals(steps) && SerialJoins(NewHub(limit), steps)
    ensures OnePerID(RunHub(NewHub(limit), steps))
  {
    SerialIsRechecked(NewHub(limit), steps);
    OneRoomPerIDExactlyWhenMapIsRechecked(NewHub(limit), steps);
  }

  // ---- which of an ID's rooms a lookup finds ----

  /** A mapped room is the newest object of its ID. */
  ghost predicate NewestMapped(h: Hub) {
    forall id, r: nat :: id in h.rooms && h.rooms[id] < r < |h.objs| ==> h.objs[r].id != id
  }

  lemma CreateMaps(h: Hub, j: nat)
    requires WellFormed(h) && CanStep(h, CreateRoom(j))
    ensures Do(h, CreateRoom(j)).rooms == h.rooms[h.joiners[j].id := |h.objs|]
  {}

  lemma OthersMapNothing(h: Hub, a: HubStep)
    requires WellFormed(h) && CanStep(h, a) && !a.CreateRoom?
    ensures forall id :: id in Do(h, a).rooms ==> id in h.rooms && Do(h, a).rooms[id] == h.rooms[id]
  {}

  lemma StepKeepsNewest(h: Hub, a: HubStep)
    requires WellFormed(h) && CanStep(h, a) && NewestMapped(h)
    ensures NewestMapped(Do(h, a))
  {
    IDsGrow(h, a);
    if a.CreateRoom? { CreateMaps(h, a.j); } else { OthersMapNothing(h, a); }
  }

  lemma {:induction false} RunKeepsNewest(h: Hub, steps: seq<HubStep>)
    requires WellFormed(h) && LegalHub(h, steps) && NewestMapped(h)
    ensures NewestMapped(RunHub(h, steps))
    decreases |steps|
  {
    if steps != [] {
      DoKeepsWellFormed(h, steps[0]);
      StepKeepsNewest(h, steps[0]);
      RunKeepsNewest(Do(h, steps[0]), steps[1..]);
    }
  }

  // In every reachable state a lookup finds the newest room object of the ID: creating a room hides those before it.
  lemma LookupFindsTheNewest(h: Hub, id: Uuid, r: RoomRef)
    requires ReachableHub(h) && id in h.rooms && r < |h.objs| && h.objs[r].id == id
    ensures r <= h.rooms[id] < |h.objs| && h.objs[h.rooms[id]].id == id
  {
    var steps :| LegalHub(NewHub(h.limit), steps) && RunHub(NewHub(h.limit), steps) == h;
    RunKeepsNewest(NewHub(h.limit), steps);
    ReachableHubWellFormed(h);
  }

  // A join looks its room up on a hub that has no rooms.
  lemma Miss(h: Hub, id: Uuid) returns (h': Hub)
    requires ReachableHub(h) && h.objs == [] && h.rooms == map[]
    ensures ReachableHub(h') && h'.objs == [] && h'.rooms == map[] && h'.joiners == h.joiners + [Missing(id)]
  {
    var j := |h.joiners|;
    HubStepStaysReachable(h, Arrive(id));
    var mid := Do(h, Arrive(id));
    HubStepStaysReachable(mid, GetRoom(j));
    h' := Do(mid, GetRoom(j));
  }

  // A join that found no room makes one.
  lemma Make(h: Hub, j: nat) returns (h': Hub)
    requires ReachableHub(h) && Alive(h) && j < |h.joiners| && h.joiners[j].Missing?
    ensures ReachableHub(h') && Alive(h') && h'.objs == h.objs + [RoomObj(h.joiners[j].id, Init(h.limit))]
    ensures h'.joiners == h.joiners[j := Got(h.joiners[j].id, |h.objs|)]
  {
    HubStepStaysReachable(h, CreateRoom(j));
    h' := Do(h, CreateRoom(j));
  }

  // Two joins that both look before either makes the room end up in different room objects under one ID.
  lemma RacingJoinsSplitARoom(id: Uuid) returns (h: Hub)
    ensures ReachableHub(h) && h.joiners == [Got(id, 0), Got(id, 1)]
    ensures |h.objs| == 2 && h.objs[0].id == h.objs[1].id == id && !OnePerID(h)
  {
    HubStart(50);
    h := Miss(NewHub(50), id);
    h := Miss(h, id);
    h := Make(h, 0);
    h := Make(h, 1);
  }
}
