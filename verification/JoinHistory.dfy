// A joiner misses nothing between its history page and the live broadcasts.
module JoinHistory {
  import opened Sharding
  import opened RoomProtocol
  import opened RoomInvariants
  import opened Accounting
  import opened Membership

  /** The handler is past the history query. */
  predicate PastQuery(p: Phase) { p.Replaying? || Started(p) }

  // ---- rows and the broadcasts that carry them ----

  predicate RowOK(s: State, k: nat)
    requires k < |s.store|
  {
    match s.store[k].author
    case Elsewhere => s.store[k].fate.Unsent?
    case Member(i) =>
      && i < |s.clients|
      && match s.store[k].fate
         case Unsent => s.clients[i].phase == Holding(Chat(k))
         case SentAs(b) => b < |s.log| && s.log[b].sender == i && s.log[b].body == Chat(k)
         case Abandoned => true
  }

  predicate HeldOK(s: State, i: Cid)
    requires At(s, i)
  {
    var p := s.clients[i].phase;
    p.Holding? && p.body.Chat? ==> p.body.row < |s.store| && s.store[p.body.row] == Row(Member(i), Unsent)
  }

  predicate CarriedOK(s: State, b: nat)
    requires b < |s.log|
  {
    s.log[b].body.Chat? ==> s.log[b].body.row < |s.store| && s.store[s.log[b].body.row].fate == SentAs(b)
  }

  ghost predicate Rows(s: State) {
    && (forall k: nat :: k < |s.store| ==> RowOK(s, k))
    && (forall i: nat :: i < |s.clients| ==> HeldOK(s, i))
    && (forall b: nat :: b < |s.log| ==> CarriedOK(s, b))
  }

  predicate RowStep(a: Step) { a.Persist? || a.PersistElsewhere? || a.Skip? || a.Snapshot? }

  /** No client starts or stops holding a saved chat; the store and the log are untouched. */
  ghost predicate SameRows(s: State, s': State) {
    && s'.log == s.log && s'.store == s.store && |s.clients| <= |s'.clients|
    && (forall i: nat :: i < |s.clients| && (s.clients[i].phase.Holding? || s'.clients[i].phase.Holding?) ==>
          s'.clients[i].phase == s.clients[i].phase
              || (s.clients[i].phase.Idle? && s'.clients[i].phase == Holding(Typing)))
    && (forall i: nat :: |s.clients| <= i < |s'.clients| ==> s'.clients[i].phase.Fresh?)
  }

  lemma JoinSameRows(s: State, a: Step)
    requires Sane(s) && Enabled(s, a)
             && (JoinStep(a) || a.AddLock? || a.Remove? || a.Consume? || a.SelfError? || a.TypingFrame?)
    ensures SameRows(s, Apply(s, a))
  {}

  lemma MoveSameRows(s: State, a: Step)
    requires Sane(s) && Enabled(s, a) && MoveStep(a)
    ensures SameRows(s, Apply(s, a))
  {}

  lemma LoopSameRows(s: State, a: Step)
    requires Sane(s) && Enabled(s, a) && LoopStep(a)
    ensures SameRows(s, Apply(s, a))
  {}

  lemma DeliverSameRows(s: State, c: Cid)
    requires Sane(s) && Enabled(s, Deliver(c))
    ensures SameRows(s, Apply(s, Deliver(c)))
  {}

  lemma SameRowsKeep(s: State, s': State)
    requires Rows(s) && SameRows(s, s')
    ensures Rows(s')
  {
    forall k: nat | k < |s'.store| ensures RowOK(s', k) { assert RowOK(s, k); }
    forall i: nat | i < |s'.clients| ensures HeldOK(s', i) { assert i < |s.clients| ==> HeldOK(s, i); }
    forall b: nat | b < |s'.log| ensures CarriedOK(s', b) { assert CarriedOK(s, b); }
  }

  lemma RowStepKeep(s: State, a: Step)
    requires Shape(s) && Sane(s) && Rows(s) && Enabled(s, a) && RowStep(a)
    ensures Rows(Apply(s, a))
  {
    if a.Persist? || a.PersistElsewhere? { NewRowKeeps(s, a); } else { SentRowKeeps(s, a); }
  }

  lemma NewRowKeeps(s: State, a: Step)
    requires Shape(s) && Sane(s) && Rows(s) && Enabled(s, a) && (a.Persist? || a.PersistElsewhere?)
    ensures Rows(Apply(s, a))
  {
    var s' := Apply(s, a);
    forall k: nat | k < |s'.store| ensures RowOK(s', k) { assert k < |s.store| ==> RowOK(s, k); }
    forall i: nat | i < |s'.clients| ensures HeldOK(s', i) { assert HeldOK(s, i); }
    forall b: nat | b < |s'.log| ensures CarriedOK(s', b) { assert CarriedOK(s, b); }
  }

  lemma SentRowKeeps(s: State, a: Step)
    requires Shape(s) && Sane(s) && Rows(s) && Enabled(s, a) && (a.Skip? || a.Snapshot?)
    ensures Rows(Apply(s, a))
  {
    var s' := Apply(s, a);
    assert HeldOK(s, a.c);
    forall k: nat | k < |s'.store| ensures RowOK(s', k) { assert k < |s.store| ==> RowOK(s, k); }
    forall i: nat | i < |s'.clients| ensures HeldOK(s', i) { assert HeldOK(s, i); }
    forall b: nat | b < |s'.log| ensures CarriedOK(s', b) { assert b < |s.log| ==> CarriedOK(s, b); }
  }

  lemma StepKeepsRows(s: State, a: Step)
    requires Shape(s) && Sane(s) && Rows(s) && Enabled(s, a)
    ensures Rows(Apply(s, a))
  {
    if RowStep(a) { RowStepKeep(s, a); }
    else {
      if a.Deliver? { DeliverSameRows(s, a.c); }
      else if MoveStep(a) { MoveSameRows(s, a); }
      else if LoopStep(a) { LoopSameRows(s, a); }
      else { JoinSameRows(s, a); }
      SameRowsKeep(s, Apply(s, a));
    }
  }

  // ---- rows stored after a query are broadcast after the Add ----

  predicate LateOK(s: State, c: Cid, k: nat)
    requires At(s, c) && k < |s.store|
  {
    PastQuery(s.clients[c].phase) && s.clients[c].rowsAtQuery <= k && s.store[k].fate.SentAs? ==>
      s.store[k].fate.b >= s.clients[c].addedAt
  }

  ghost predicate Late(s: State) {
    forall c: nat, k: nat :: c < |s.clients| && k < |s.store| ==> LateOK(s, c, k)
  }

  // ---- the replay of the page ----

  function PastRows(xs: seq<Item>): seq<nat> {
    if xs == [] then []
    else PastRows(xs[..|xs| - 1]) + (if xs[|xs| - 1].Past? then [xs[|xs| - 1].row] else [])
  }

  lemma PastAppend(xs: seq<Item>, x: Item)
    ensures x.Past? ==> PastRows(xs + [x]) == PastRows(xs) + [x.row]
    ensures !x.Past? ==> PastRows(xs + [x]) == PastRows(xs)
  {
    assert (xs + [x])[..|xs|] == xs;
  }

  predicate Rising(xs: seq<nat>) { forall i, j :: 0 <= i < j < |xs| ==> xs[i] < xs[j] }

  function Unreplayed(cl: Client): seq<nat> { if cl.phase.Replaying? then cl.phase.rest else [] }

  /** The page is the newest rows at the query; each of its rows is sent, dropped, unsent or still to come, in order. */
  predicate ReplayOK(cl: Client, limit: nat) {
    && (PastQuery(cl.phase) && cl.queried ==> cl.page == Newest(cl.rowsAtQuery, limit))
    && (!PastQuery(cl.phase) || !cl.queried ==> cl.page == [])
    && Replayed(PastRows(cl.hist), PastRows(cl.dropped), cl.unsent, Unreplayed(cl), cl.page)
  }

  predicate Replayed(sent: seq<nat>, dropped: seq<nat>, unsent: seq<nat>, rest: seq<nat>, page: seq<nat>) {
    && multiset(sent) + multiset(dropped) + multiset(unsent) + multiset(rest) == multiset(page)
    && Rising(sent + rest)
  }

  ghost predicate Replays(s: State) {
    forall c: nat :: c < |s.clients| ==> ReplayOK(s.clients[c], s.limit)
  }

  /** Client x became y without touching its join, except that item `it` may have been offered to it. */
  predicate JoinKept(x: Client, y: Client, it: Item) {
    && y.addedAt == x.addedAt && y.rowsAtQuery == x.rowsAtQuery && y.queried == x.queried && y.page == x.page
         && y.unsent == x.unsent
    && PastQuery(y.phase) == PastQuery(x.phase) && Unreplayed(y) == Unreplayed(x)
    && ((y.hist == x.hist && y.dropped == x.dropped)
        || (y.hist == x.hist + [it] && y.dropped == x.dropped)
        || (y.hist == x.hist && y.dropped == x.dropped + [it]))
  }

  ghost predicate JoinsKept(s: State, s': State, it: Item) {
    && s'.limit == s.limit && |s.clients| <= |s'.clients| && !it.Past?
    && (forall c: nat :: c < |s.clients| ==> JoinKept(s.clients[c], s'.clients[c], it))
    && (forall c: nat :: |s.clients| <= c < |s'.clients| ==> s'.clients[c] == NewClient(s'.clients[c].roomID))
  }

  predicate ViewStep(a: Step) { a.AddLock? || a.Query? || a.Replay? }

  /** The item that step a may put in someone's buffer. */
  function ItemOf(s: State, a: Step): Item
    requires Sane(s) && Enabled(s, a)
  {
    match a
    case Deliver(c) => Live(s.clients[c].phase.b, Direct)
    case Send(w) => Live(s.workers[w].hand.message, Via(w))
    case _ => Notice
  }

  lemma JoinStepsKeep(s: State, a: Step)
    requires Sane(s) && Enabled(s, a) && (a.Connect? || a.AddCheck? || a.Activate?)
    ensures JoinsKept(s, Apply(s, a), ItemOf(s, a))
  {
    if a.Connect? { ConnectKeeps(s, a); } else { AddKeeps(s, a); }
  }

  lemma ConnectKeeps(s: State, a: Step)
    requires Sane(s) && Enabled(s, a) && a.Connect?
    ensures JoinsKept(s, Apply(s, a), Notice)
  {}

  lemma AddKeeps(s: State, a: Step)
    requires Sane(s) && Enabled(s, a) && (a.AddCheck? || a.Activate?)
    ensures JoinsKept(s, Apply(s, a), Notice)
  {}

  lemma OwnStepsKeep(s: State, a: Step)
    requires Sane(s) && Enabled(s, a) && (a.Start? || a.Remove? || a.Consume?)
    ensures JoinsKept(s, Apply(s, a), ItemOf(s, a))
  {}

  lemma SelfStepsKeep(s: State, a: Step)
    requires Sane(s) && Enabled(s, a) && (a.SelfError? || a.TypingFrame?)
    ensures JoinsKept(s, Apply(s, a), ItemOf(s, a))
  {}

  lemma PersistKeeps(s: State, c: Cid, ok: bool)
    requires Sane(s) && Enabled(s, Persist(c, ok))
    ensures JoinsKept(s, Apply(s, Persist(c, ok)), ItemOf(s, Persist(c, ok)))
  {}

  lemma PersistElsewhereKeeps(s: State)
    requires Sane(s) && Enabled(s, PersistElsewhere)
    ensures JoinsKept(s, Apply(s, PersistElsewhere), ItemOf(s, PersistElsewhere))
  {}

  lemma FrameStepsKeep(s: State, a: Step)
    requires Sane(s) && Enabled(s, a) && (a.Skip? || a.Snapshot?)
    ensures JoinsKept(s, Apply(s, a), ItemOf(s, a))
  {}

  lemma WorkerStepsKeep(s: State, a: Step)
    requires Sane(s) && Enabled(s, a) && (a.Take? || a.Exit?)
    ensures JoinsKept(s, Apply(s, a), ItemOf(s, a))
  {}

  lemma SendKeeps(s: State, w: nat)
    requires Sane(s) && Enabled(s, Send(w))
    ensures JoinsKept(s, Apply(s, Send(w)), ItemOf(s, Send(w)))
  {}

  lemma ShutStepsKeep(s: State, a: Step)
    requires Sane(s) && Enabled(s, a) && (a.ShutStart? || a.ShutClose? || a.ShutReturn?)
    ensures JoinsKept(s, Apply(s, a), ItemOf(s, a))
  {}

  lemma EnqueueKeeps(s: State, c: Cid)
    requires Sane(s) && Enabled(s, Enqueue(c))
    ensures JoinsKept(s, Apply(s, Enqueue(c)), ItemOf(s, Enqueue(c)))
  {
    EnqueueMovesOneLoop(s, c);
  }

  lemma EnqueueMovesOneLoop(s: State, c: Cid)
    requires Sane(s) && Enabled(s, Enqueue(c))
    ensures var s' := Apply(s, Enqueue(c));
            && s'.limit == s.limit && |s'.clients| == |s.clients|
            && (s'.clients[c].phase.Submitting? || s'.clients[c].phase.Leaving?)
            && s'.clients == s.clients[c := s.clients[c].(phase := s'.clients[c].phase)]
  {}

  lemma FinishKeeps(s: State, c: Cid)
    requires Sane(s) && Enabled(s, Finish(c))
    ensures JoinsKept(s, Apply(s, Finish(c)), ItemOf(s, Finish(c)))
  {}

  lemma DeliverKeepsOne(s: State, c: Cid, d: Cid)
    requires Sane(s) && Enabled(s, Deliver(c)) && At(s, d)
    ensures d < |Apply(s, Deliver(c)).clients|
            && JoinKept(s.clients[d], Apply(s, Deliver(c)).clients[d], ItemOf(s, Deliver(c)))
  {
    if d == c { DeliverKeepsSender(s, c); } else { DeliverKeepsOther(s, c, d); }
  }

  lemma DeliverKeepsSender(s: State, c: Cid)
    requires Sane(s) && Enabled(s, Deliver(c))
    ensures c < |Apply(s, Deliver(c)).clients|
            && JoinKept(s.clients[c], Apply(s, Deliver(c)).clients[c], ItemOf(s, Deliver(c)))
  {}

  lemma DeliverKeepsOther(s: State, c: Cid, d: Cid)
    requires Sane(s) && Enabled(s, Deliver(c)) && At(s, d) && d != c
    ensures d < |Apply(s, Deliver(c)).clients|
            && JoinKept(s.clients[d], Apply(s, Deliver(c)).clients[d], ItemOf(s, Deliver(c)))
  {}

  lemma DeliverKeeps(s: State, c: Cid)
    requires Sane(s) && Enabled(s, Deliver(c))
    ensures JoinsKept(s, Apply(s, Deliver(c)), ItemOf(s, Deliver(c)))
  {
    forall d: nat | d < |s.clients|
      ensures d < |Apply(s, Deliver(c)).clients|
              && JoinKept(s.clients[d], Apply(s, Deliver(c)).clients[d], ItemOf(s, Deliver(c)))
    {
      DeliverKeepsOne(s, c, d);
    }
  }

  lemma OtherStepsKeepJoins(s: State, a: Step)
    requires Sane(s) && Enabled(s, a) && !ViewStep(a)
    ensures JoinsKept(s, Apply(s, a), ItemOf(s, a))
  {
    match a
    case Deliver(c) => DeliverKeeps(s, c);
    case Persist(c, ok) => PersistKeeps(s, c, ok);
    case PersistElsewhere => PersistElsewhereKeeps(s);
    case Skip(_) | Snapshot(_, _) => FrameStepsKeep(s, a);
    case SelfError(_) | TypingFrame(_) => SelfStepsKeep(s, a);
    case Connect(_) | AddCheck(_) | Activate(_) => JoinStepsKeep(s, a);
    case Start(_) | Remove(_) | Consume(_) => OwnStepsKeep(s, a);
    case Enqueue(c) => EnqueueKeeps(s, c);
    case Finish(c) => FinishKeeps(s, c);
    case Send(w) => SendKeeps(s, w);
    case Take(_) | Exit(_) => WorkerStepsKeep(s, a);
    case ShutStart | ShutClose | ShutReturn => ShutStepsKeep(s, a);
  }

  lemma JoinKeptReplay(x: Client, y: Client, it: Item, limit: nat)
    requires JoinKept(x, y, it) && !it.Past? && ReplayOK(x, limit)
    ensures ReplayOK(y, limit)
  {
    PastAppend(x.hist, it);
    PastAppend(x.dropped, it);
    assert PastRows(y.hist) == PastRows(x.hist) && PastRows(y.dropped) == PastRows(x.dropped);
  }

  lemma NothingReplayed(sent: seq<nat>, dropped: seq<nat>, unsent: seq<nat>)
    requires Replayed(sent, dropped, unsent, [], [])
    ensures sent == [] && dropped == [] && unsent == []
  {
    assert |multiset(sent) + multiset(dropped) + multiset(unsent)| == 0;
  }

  lemma NothingYetReplayed(page: seq<nat>)
    requires Rising(page)
    ensures Replayed([], [], [], page, page)
  {
    assert [] + page == page;
  }

  lemma NewestRises(n: nat, limit: nat)
    ensures Rising(Newest(n, limit))
  {}

  lemma QueryReplay(cl: Client, y: Client, limit: nat)
    requires cl.phase.Joined? && ReplayOK(cl, limit)
    requires y.hist == cl.hist && y.dropped == cl.dropped && y.unsent == cl.unsent && y.phase == Replaying(y.page)
    requires y.page == if y.queried then Newest(y.rowsAtQuery, limit) else []
    ensures ReplayOK(y, limit)
  {
    NothingReplayed(PastRows(cl.hist), PastRows(cl.dropped), cl.unsent);
    NewestRises(y.rowsAtQuery, limit);
    NothingYetReplayed(y.page);
  }

  // The next row of the page is sent, dropped or skipped.
  lemma ReplayOne(sent: seq<nat>, dropped: seq<nat>, unsent: seq<nat>, rest: seq<nat>, page: seq<nat>)
    requires rest != [] && Replayed(sent, dropped, unsent, rest, page)
    ensures Replayed(sent + [rest[0]], dropped, unsent, rest[1..], page)
    ensures Replayed(sent, dropped + [rest[0]], unsent, rest[1..], page)
    ensures Replayed(sent, dropped, unsent + [rest[0]], rest[1..], page)
  {
    var tail := rest[1..];
    assert rest == [rest[0]] + tail;
    assert (sent + [rest[0]]) + tail == sent + rest;
    var all, less := sent + rest, sent + tail;
    assert forall i :: 0 <= i < |less| ==> less[i] == all[if i < |sent| then i else i + 1];
  }

  lemma ReplayReplay(cl: Client, y: Client, limit: nat)
    requires cl.phase.Replaying? && cl.phase.rest != [] && ReplayOK(cl, limit)
    requires y.phase == Replaying(cl.phase.rest[1..]) && y.page == cl.page && y.queried == cl.queried
             && y.rowsAtQuery == cl.rowsAtQuery
    requires var row := cl.phase.rest[0];
             || (y.hist == cl.hist + [Past(row)] && y.dropped == cl.dropped && y.unsent == cl.unsent)
             || (y.hist == cl.hist && y.dropped == cl.dropped + [Past(row)] && y.unsent == cl.unsent)
             || (y.hist == cl.hist && y.dropped == cl.dropped && y.unsent == cl.unsent + [row])
    ensures ReplayOK(y, limit)
  {
    var row := cl.phase.rest[0];
    PastAppend(cl.hist, Past(row));
    PastAppend(cl.dropped, Past(row));
    ReplayOne(PastRows(cl.hist), PastRows(cl.dropped), cl.unsent, cl.phase.rest, cl.page);
  }

  lemma OneClientReplays(s: State, s': State, c: Cid)
    requires Replays(s) && At(s, c) && |s'.clients| == |s.clients| && s'.limit == s.limit
             && ReplayOK(s'.clients[c], s.limit)
    requires forall d: nat :: d < |s.clients| && d != c ==> s'.clients[d] == s.clients[d]
    ensures Replays(s')
  {}

  lemma AddLockReplays(s: State, c: Cid)
    requires Sane(s) && Replays(s) && Enabled(s, AddLock(c))
    ensures Replays(Apply(s, AddLock(c)))
  {
    assert ReplayOK(s.clients[c], s.limit);
    OneClientReplays(s, Apply(s, AddLock(c)), c);
  }

  lemma QueryReplays(s: State, c: Cid, ok: bool)
    requires Sane(s) && Replays(s) && Enabled(s, Query(c, ok))
    ensures Replays(Apply(s, Query(c, ok)))
  {
    var s' := Apply(s, Query(c, ok));
    QueryReplay(s.clients[c], s'.clients[c], s.limit);
    OneClientReplays(s, s', c);
  }

  lemma ReplayMoves(s: State, c: Cid, ok: bool)
    requires Sane(s) && Enabled(s, Replay(c, ok))
    ensures At(Apply(s, Replay(c, ok)), c)
    ensures var cl, y := s.clients[c], Apply(s, Replay(c, ok)).clients[c];
            && y.phase == Replaying(cl.phase.rest[1..]) && y.page == cl.page && y.queried == cl.queried
                 && y.rowsAtQuery == cl.rowsAtQuery
            && (|| (y.hist == cl.hist + [Past(cl.phase.rest[0])] && y.dropped == cl.dropped && y.unsent == cl.unsent)
                || (y.hist == cl.hist && y.dropped == cl.dropped + [Past(cl.phase.rest[0])] && y.unsent == cl.unsent)
                || (y.hist == cl.hist && y.dropped == cl.dropped && y.unsent == cl.unsent + [cl.phase.rest[0]]))
  {}

  lemma ReplayReplays(s: State, c: Cid, ok: bool)
    requires Sane(s) && Replays(s) && Enabled(s, Replay(c, ok))
    ensures Replays(Apply(s, Replay(c, ok)))
  {
    var s' := Apply(s, Replay(c, ok));
    ReplayMoves(s, c, ok);
    ReplayReplay(s.clients[c], s'.clients[c], s.limit);
    OneClientReplays(s, s', c);
  }

  lemma StepKeepsReplays(s: State, a: Step)
    requires Sane(s) && Replays(s) && Enabled(s, a)
    ensures Replays(Apply(s, a))
  {
    if a.AddLock? { AddLockReplays(s, a.c); }
    else if a.Query? { QueryReplays(s, a.c, a.ok); }
    else if a.Replay? { ReplayReplays(s, a.c, a.ok); }
    else {
      var s' := Apply(s, a);
      OtherStepsKeepJoins(s, a);
      forall c: nat | c < |s'.clients| ensures ReplayOK(s'.clients[c], s'.limit) {
        if c < |s.clients| { JoinKeptReplay(s.clients[c], s'.clients[c], ItemOf(s, a), s.limit); }
      }
    }
  }

  lemma FateStep(s: State, a: Step, k: nat)
    requires Sane(s) && Enabled(s, a) && k < |Apply(s, a).store|
    ensures var row := Apply(s, a).store[k];
            (k < |s.store| && row == s.store[k]) || !row.fate.SentAs? || row.fate.b == |s.log|
    ensures |s.store| <= |Apply(s, a).store|
  {
    if !RowStep(a) { StoreStays(s, a); }
  }

  lemma StoreStays(s: State, a: Step)
    requires Sane(s) && Enabled(s, a) && !RowStep(a)
    ensures Apply(s, a).store == s.store
  {}

  lemma StepKeepsLate(s: State, a: Step)
    requires Shape(s) && Sane(s) && Windows(s) && Late(s) && Enabled(s, a)
    ensures Late(Apply(s, a))
  {
    var s' := Apply(s, a);
    if !ViewStep(a) { OtherStepsKeepJoins(s, a); }
    forall c: nat, k: nat | c < |s'.clients| && k < |s'.store| ensures LateOK(s', c, k) {
      FateStep(s, a, k);
      if c < |s.clients| && k < |s.store| { assert LateOK(s, c, k); }
    }
  }

  lemma {:induction false} RunKeepsJoins(s: State, steps: seq<Step>)
    requires Shape(s) && Windows(s) && Rows(s) && Late(s) && Replays(s) && Legal(s, steps)
    ensures var s' := Exec(s, steps); Shape(s') && Windows(s') && Rows(s') && Late(s') && Replays(s')
    decreases |steps|
  {
    if steps != [] {
      var a := steps[0];
      StepKeepsShape(s, a);
      StepWindows(s, a);
      StepKeepsRows(s, a);
      StepKeepsLate(s, a);
      StepKeepsReplays(s, a);
      RunKeepsJoins(Apply(s, a), steps[1..]);
    }
  }

  lemma ReachableJoins(s: State)
    requires Reachable(s)
    ensures Shape(s) && Windows(s) && Rows(s) && Late(s) && Replays(s)
  {
    var steps :| Legal(Init(s.limit), steps) && Exec(Init(s.limit), steps) == s;
    RunKeepsJoins(Init(s.limit), steps);
  }

  lemma NewestHolds(n: nat, limit: nat, k: nat)
    ensures k in Newest(n, limit) <==> k < n && n <= k + limit
  {
    var page := Newest(n, limit);
    var lo := Max(n - limit, 0);
    if lo <= k < n { assert page[k - lo] == k; }
  }

  // No gap on join. Once c's history query has succeeded, a row saved by another client i of this room is
  //   - in c's page, or pushed out of it by at least `limit` rows saved later but before the query; or
  //   - saved after the query, and then either still about to be broadcast by i, dropped because it did not marshal, or
  //     broadcast, and offered to c unless c had left by then.
  lemma JoinHasNoGap(s: State, c: Cid, k: nat, i: Cid)
    requires Reachable(s) && At(s, c) && PastQuery(s.clients[c].phase) && s.clients[c].queried
    requires k < |s.store| && s.store[k].author == Member(i) && i != c
    ensures var cl, fate := s.clients[c], s.store[k].fate;
            && (k < cl.rowsAtQuery ==> (k in cl.page <==> cl.rowsAtQuery - (k + 1) < s.limit))
            && (k >= cl.rowsAtQuery ==>
                 match fate
                 case Unsent => At(s, i) && s.clients[i].phase == Holding(Chat(k))
                 case Abandoned => true
                 case SentAs(b) => b < |s.log| && (c in s.log[b].snapshot || (cl.phase.Gone? && cl.removedAt <= b)))
  {
    ReachableJoins(s);
    var cl := s.clients[c];
    assert ReplayOK(cl, s.limit) && RowOK(s, k) && LateOK(s, c, k);
    NewestHolds(cl.rowsAtQuery, s.limit, k);
    if k >= cl.rowsAtQuery && s.store[k].fate.SentAs? {
      OfferedExactlyToMembers(s, c, s.store[k].fate.b);
    }
  }

  lemma {:induction false} RisingCount(xs: seq<nat>, x: nat)
    requires Rising(xs)
    ensures Times(xs, x) <= 1
    decreases |xs|
  {
    if xs != [] {
      assert xs == [xs[0]] + xs[1..];
      assert forall i :: 0 <= i < |xs[1..]| ==> xs[1..][i] == xs[i + 1];
      RisingCount(xs[1..], x);
      assert xs[0] !in xs[1..];
    }
  }

  // Each row reaches a client at most once from its page and at most once live: the page rows arrive in order without
  // repeats, and one broadcast at most carries a row.
  lemma EachWayAtMostOnce(s: State, c: Cid, b1: nat, b2: nat)
    requires Reachable(s) && At(s, c) && b1 < |s.log| && b2 < |s.log|
    ensures Rising(PastRows(s.clients[c].hist))
    ensures forall k <- PastRows(s.clients[c].hist) :: k in s.clients[c].page
    ensures s.log[b1].body.Chat? && s.log[b1].body == s.log[b2].body ==> b1 == b2
    ensures CountLive(s.clients[c].hist, b1) <= 1
  {
    ReachableJoins(s);
    var cl := s.clients[c];
    assert ReplayOK(cl, s.limit);
    assert CarriedOK(s, b1) && CarriedOK(s, b2);
    var sent, all := PastRows(cl.hist), PastRows(cl.hist) + Unreplayed(cl);
    assert forall i :: 0 <= i < |sent| ==> sent[i] == all[i];
    forall k | k in sent ensures k in cl.page {
      assert k in multiset(sent);
      assert k in multiset(cl.page);
    }
    if b1 in LiveNumbers(cl.hist) { NoEchoNoRepeat(s, c, b1); }
  }

  /** What became of row k's place in c's page, if it was not sent: refused
      by a full buffer, not encoded, or still to come. */
  predicate ReplayMissed(cl: Client, k: nat) { k in PastRows(cl.dropped) || k in cl.unsent || k in Unreplayed(cl) }

  /** What became of broadcast b on its way to c, if c does not have it: refused, under way, dropped with a shard,
      or given up. */
  predicate LiveMissed(s: State, c: Cid, b: nat) {
    Refused(s, c, b) + Pending(s, c, b) + ShardDropped(s, c, b) + GivenUp(s, c, b) > 0
  }

  lemma OneOfThree(sent: seq<nat>, dropped: seq<nat>, unsent: seq<nat>, rest: seq<nat>, page: seq<nat>, k: nat)
    requires Replayed(sent, dropped, unsent, rest, page) && k in page && NoDuplicates(page)
    ensures k in sent <==> k !in dropped && k !in unsent && k !in rest
  {
    DistinctCount(page, k);
    assert multiset(sent)[k] + multiset(dropped)[k] + multiset(unsent)[k] + multiset(rest)[k] == multiset(page)[k];
    assert k in sent <==> k in multiset(sent);
    assert k in dropped <==> k in multiset(dropped);
    assert k in unsent <==> k in multiset(unsent);
    assert k in rest <==> k in multiset(rest);
  }

  lemma HasExactlyWhenNotMissed(s: State, c: Cid, b: nat)
    requires Reachable(s) && At(s, c) && b < |s.log| && c in s.log[b].snapshot
    ensures b in LiveNumbers(s.clients[c].hist) <==> !LiveMissed(s, c, b)
  {
    ReachableBalance(s, c, b);
    assert BcastOK(s.log[b], |s.clients|);
    DistinctCount(s.log[b].snapshot, c);
    var live := LiveNumbers(s.clients[c].hist);
    assert b in live <==> b in multiset(live);
  }

  // End to end, for one member and one row that another member saved and broadcast: unless `limit` newer rows were
  // saved before the member's query, the row is in its page or was offered live; and it has been received that way
  // exactly when this one delivery was not refused, dropped or given up and is not still to come, whatever happened to
  // any other.
  lemma MemberHasEveryRow(s: State, c: Cid, k: nat, i: Cid)
    requires Reachable(s) && At(s, c) && s.clients[c].queried && PastQuery(s.clients[c].phase)
             && !s.clients[c].phase.Gone?
    requires k < |s.store| && s.store[k].author == Member(i) && i != c && s.store[k].fate.SentAs?
    requires k >= s.clients[c].rowsAtQuery - s.limit
    ensures var cl, b := s.clients[c], s.store[k].fate.b;
            if k in cl.page then k in PastRows(cl.hist) <==> !ReplayMissed(cl, k)
            else b in LiveNumbers(cl.hist) <==> !LiveMissed(s, c, b)
  {
    JoinHasNoGap(s, c, k, i);
    ReachableJoins(s);
    var cl := s.clients[c];
    assert ReplayOK(cl, s.limit);
    if k in cl.page {
      OneOfThree(PastRows(cl.hist), PastRows(cl.dropped), cl.unsent, Unreplayed(cl), cl.page, k);
    } else {
      HasExactlyWhenNotMissed(s, c, s.store[k].fate.b);
    }
  }
}
