// One Room object as a concurrent protocol.
//
// Every goroutine that touches the room is a small program with a program counter: each connection's handler
// (join, replay, read loop, leave), each pool worker, each writer that drains a send buffer, and the goroutine that
// shuts the room down. A step is one lock section, one channel operation or one unlocked read, and any enabled step
// of any goroutine may come next.
//
// Fields marked "history" record what happened; no step depends on them.
module RoomProtocol {
  import opened Basics
  import opened Sharding

  type Cid = nat

  /** What a broadcast carries: a chat saved as row k, a chat whose save failed, or a typing event. */
  datatype Body = Chat(row: nat) | Unsaved | Typing

  /** How a broadcast reached a send buffer: from the sender's own loop, or through worker w. */
  datatype Lane = Direct | Via(worker: nat)

  /** What sits in a send buffer: broadcast number b, row k replayed from history, or an error notice. */
  datatype Item = Live(b: nat, lane: Lane) | Past(row: nat) | Notice

  /** History: one call of Broadcast, with the clients in the order the map iteration produced. */
  datatype Bcast = Bcast(sender: Cid, body: Body, snapshot: seq<Cid>)

  datatype Author = Member(c: Cid) | Elsewhere
  datatype Fate = Unsent | SentAs(b: nat) | Abandoned
  /** A stored message of this room. `fate` is history: which broadcast carried it. */
  datatype Row = Row(author: Author, fate: Fate)

  /** Where a connection's handler is. */
  datatype Phase =
    | Fresh                        // client made, not yet added
    | Added(count: nat)            // first lock section of Add done, with the size it read
    | Activating                   // about to enter activatePool
    | Joined                       // Add returned
    | Replaying(rest: seq<nat>)    // rows of the history page still to send, oldest first
    | Idle                         // read loop waiting for a frame
    | Holding(body: Body)          // frame handled, broadcast not yet started
    | Delivering(b: nat, rest: seq<Cid>)
    | Submitting(b: nat, rest: seq<Cid>, chunk: nat, next: nat)
    | Leaving                      // unwinding after a panic in the read loop
    | Gone                         // removed, send channel closed

  /** `hist[taken..]` is the send buffer and `hist[..taken]` is what the writer took from it. */
  datatype Client = Client(
    roomID: Uuid,
    phase: Phase,
    hist: seq<Item>,
    taken: nat,
    dropped: seq<Item>,   // history: refused by a full send buffer
    unsent: seq<nat>,     // history: page rows that did not marshal
    page: seq<nat>,       // history: the page that the query returned
    queried: bool,        // history: the query ran without error
    rowsAtQuery: nat,     // history: rows stored when the query ran
    addedAt: nat,         // history: broadcasts started before Add
    removedAt: nat,       // history: broadcasts started before Remove
    closes: nat           // history: times the send channel was closed
  )

  datatype Worker = Worker(queue: seq<Job<nat, Cid>>, hand: Job<nat, Cid>, closed: bool, exited: bool)

  datatype Shut = NotCalled | Closing(k: nat) | Waiting | Returned

  datatype State = State(
    limit: nat,                       // history page limit
    clients: seq<Client>,
    members: set<Cid>,
    store: seq<Row>,                  // this room's rows, oldest first
    log: seq<Bcast>,                  // history
    hasPool: bool,
    created: nat,                     // history: pools made
    workers: seq<Worker>,
    shardDrops: seq<Job<nat, Cid>>,   // history: shards refused by a full worker queue
    lost: seq<Job<nat, Cid>>,         // history: deliveries abandoned by a panicking read loop
    badSends: seq<(Cid, nat)>,        // history: sends of broadcast b on client d's closed channel
    badIndex: bool,                   // history: a shard was given to a worker that does not exist
    shut: Shut,
    crashed: bool                     // a worker goroutine panicked, which ends the process
  )

  function NewClient(roomID: Uuid): Client {
    Client(roomID, Fresh, [], 0, [], [], [], false, 0, 0, 0, 0)
  }

  function Init(limit: nat): State {
    State(limit, [], {}, [], [], false, 0, [], [], [], [], false, NotCalled, false)
  }

  function NewPool(n: nat): seq<Worker> {
    seq(n, _ => Worker([], Job(0, []), false, false))
  }

  /** Send and SendRaw: the item is dropped when the buffer holds 256 items. */
  function Accept(cl: Client, x: Item): Client
    requires cl.taken <= |cl.hist|
  {
    if |cl.hist| - cl.taken < SEND_BUFFER then cl.(hist := cl.hist + [x]) else cl.(dropped := cl.dropped + [x])
  }

  /** The newest `limit` rows among the first n, oldest first. */
  function Newest(n: nat, limit: nat): (page: seq<nat>) {
    var lo := Max(n - limit, 0);
    seq(n - lo, i => lo + i)
  }

  predicate IsSnapshot(order: seq<Cid>, members: set<Cid>, sender: Cid) {
    && NoDuplicates(order)
    && (set d | d in order) == members - {sender}
  }

  predicate Started(p: Phase) {
    p.Idle? || p.Holding? || p.Delivering? || p.Submitting? || p.Leaving? || p.Gone?
  }

  datatype Step =
    | Connect(roomID: Uuid)
    | AddLock(c: Cid)
    | AddCheck(c: Cid)
    | Activate(c: Cid)
    | Query(c: Cid, ok: bool)
    | Replay(c: Cid, ok: bool)
    | Start(c: Cid)
    | SelfError(c: Cid)
    | TypingFrame(c: Cid)
    | Persist(c: Cid, ok: bool)
    | PersistElsewhere
    | Skip(c: Cid)
    | Snapshot(c: Cid, order: seq<Cid>)
    | Deliver(c: Cid)
    | Enqueue(c: Cid)
    | Finish(c: Cid)
    | Remove(c: Cid)
    | Consume(c: Cid)
    | Take(w: nat)
    | Send(w: nat)
    | Exit(w: nat)
    | ShutStart
    | ShutClose
    | ShutReturn

  predicate Below(xs: seq<nat>, n: nat) { forall i :: 0 <= i < |xs| ==> xs[i] < n }

  predicate At(s: State, c: Cid) { c < |s.clients| }

  predicate AllExited(ws: seq<Worker>) { forall w :: 0 <= w < |ws| ==> ws[w].exited }

  /** The room is well-formed enough for every step to be defined. */
  predicate Sane(s: State) {
    && (forall c: nat :: c < |s.clients| ==>
          && s.clients[c].taken <= |s.clients[c].hist|
          && (s.clients[c].phase.Holding? && s.clients[c].phase.body.Chat? ==> s.clients[c].phase.body.row < |s.store|)
          && (s.clients[c].phase.Delivering? ==> Below(s.clients[c].phase.rest, |s.clients|)))
    && (forall w: nat :: w < |s.workers| ==> Below(s.workers[w].hand.clients, |s.clients|))
    && (s.hasPool ==> |s.workers| > 0)
  }

  predicate Enabled(s: State, a: Step) {
    && !s.crashed
    && match a
       case Connect(_) => true
       case AddLock(c) => At(s, c) && s.clients[c].phase.Fresh?
       case AddCheck(c) => At(s, c) && s.clients[c].phase.Added?
       case Activate(c) => At(s, c) && s.clients[c].phase.Activating?
       case Query(c, _) => At(s, c) && s.clients[c].phase.Joined?
       case Replay(c, _) => At(s, c) && s.clients[c].phase.Replaying? && s.clients[c].phase.rest != []
       case Start(c) => At(s, c) && s.clients[c].phase.Replaying? && s.clients[c].phase.rest == []
       case SelfError(c) => At(s, c) && s.clients[c].phase.Idle?
       case TypingFrame(c) => At(s, c) && s.clients[c].phase.Idle?
       case Persist(c, _) => At(s, c) && s.clients[c].phase.Idle?
       case PersistElsewhere => true
       case Skip(c) => At(s, c) && s.clients[c].phase.Holding?
       case Snapshot(c, order) => At(s, c) && s.clients[c].phase.Holding? && IsSnapshot(order, s.members, c)
       case Deliver(c) => At(s, c) && s.clients[c].phase.Delivering? && s.clients[c].phase.rest != []
       case Enqueue(c) => At(s, c) && s.clients[c].phase.Submitting? && s.clients[c].phase.rest != []
       case Finish(c) => At(s, c) && (s.clients[c].phase.Delivering? || s.clients[c].phase.Submitting?)
           && s.clients[c].phase.rest == []
       case Remove(c) => At(s, c) && (s.clients[c].phase.Idle? || s.clients[c].phase.Leaving?)
       case Consume(c) => At(s, c) && Started(s.clients[c].phase) && s.clients[c].taken < |s.clients[c].hist|
       case Take(w) => w < |s.workers| && s.workers[w].hand.clients == [] && s.workers[w].queue != []
       case Send(w) => w < |s.workers| && s.workers[w].hand.clients != []
       case Exit(w) => w < |s.workers| && s.workers[w].hand.clients == [] && s.workers[w].queue == []
           && s.workers[w].closed && !s.workers[w].exited
       case ShutStart => s.shut.NotCalled?
       case ShutClose => s.shut.Closing?
       case ShutReturn => s.shut.Waiting? && AllExited(s.workers)
  }

  function Goto(s: State, c: Cid, p: Phase): State
    requires At(s, c)
  {
    s.(clients := s.clients[c := s.clients[c].(phase := p)])
  }

  function SetFate(store: seq<Row>, body: Body, fate: Fate): seq<Row>
    requires body.Chat? ==> body.row < |store|
  {
    if body.Chat? then store[body.row := store[body.row].(fate := fate)] else store
  }

  function Apply(s: State, a: Step): State
    requires Sane(s) && Enabled(s, a)
  {
    match a
    case Connect(roomID) => s.(clients := s.clients + [NewClient(roomID)])
    case AddLock(c) =>
      var members := s.members + {c};
      s.(members := members, clients := s.clients[c := s.clients[c].(phase := Added(|members|), addedAt := |s.log|)])
    case AddCheck(c) =>
      Goto(s, c, if s.clients[c].phase.count >= POOL_THRESHOLD && !s.hasPool then Activating else Joined)
    case Activate(c) =>
      if s.hasPool then Goto(s, c, Joined)
      else Goto(s, c, Joined).(hasPool := true, created := s.created + 1, workers := NewPool(WORKER_COUNT))
    case Query(c, ok) =>
      var page := if ok then Newest(|s.store|, s.limit) else [];
      s.(clients := s.clients[c := s.clients[c].(phase := Replaying(page), page := page, queried := ok,
          rowsAtQuery := |s.store|)])
    case Replay(c, ok) => ApplyReplay(s, c, ok)
    case Start(c) => Goto(s, c, Idle)
    case SelfError(c) => s.(clients := s.clients[c := Accept(s.clients[c], Notice)])
    case TypingFrame(c) => Goto(s, c, Holding(Typing))
    case Persist(c, ok) =>
      if ok then Goto(s, c, Holding(Chat(|s.store|))).(store := s.store + [Row(Member(c), Unsent)])
      else Goto(s, c, Holding(Unsaved))
    case PersistElsewhere => s.(store := s.store + [Row(Elsewhere, Unsent)])
    case Skip(c) => Goto(s, c, Idle).(store := SetFate(s.store, s.clients[c].phase.body, Abandoned))
    case Snapshot(c, order) => ApplySnapshot(s, c, order)
    case Deliver(c) => ApplyDeliver(s, c)
    case Enqueue(c) => ApplyEnqueue(s, c)
    case Finish(c) => Goto(s, c, Idle)
    case Remove(c) =>
      s.(members := s.members - {c},
         clients := s.clients[c := s.clients[c].(phase := Gone, removedAt := |s.log|, closes := s.clients[c].closes
             + 1)])
    case Consume(c) => s.(clients := s.clients[c := s.clients[c].(taken := s.clients[c].taken + 1)])
    case Take(w) =>
      var wk := s.workers[w];
      s.(workers := s.workers[w := wk.(hand := wk.queue[0], queue := wk.queue[1..])])
    case Send(w) => ApplySend(s, w)
    case Exit(w) => s.(workers := s.workers[w := s.workers[w].(exited := true)])
    case ShutStart => s.(shut := if s.hasPool then Closing(0) else Returned)
    case ShutClose =>
      var k := s.shut.k;
      if k < |s.workers| then s.(workers := s.workers[k := s.workers[k].(closed := true)], shut := Closing(k + 1))
      else s.(shut := Waiting)
    case ShutReturn => s.(shut := Returned)
  }

  function ApplyReplay(s: State, c: Cid, ok: bool): State
    requires Sane(s) && Enabled(s, Replay(c, ok))
  {
    var cl := s.clients[c];
    var row := cl.phase.rest[0];
    var moved := if ok then Accept(cl, Past(row)) else cl.(unsent := cl.unsent + [row]);
    s.(clients := s.clients[c := moved.(phase := Replaying(cl.phase.rest[1..]))])
  }

  function ApplySnapshot(s: State, c: Cid, order: seq<Cid>): State
    requires Sane(s) && Enabled(s, Snapshot(c, order))
  {
    var body := s.clients[c].phase.body;
    var b := |s.log|;
    Goto(s, c, if s.hasPool then Submitting(b, order, ChunkSize(|order|, |s.workers|), 0) else Delivering(b, order))
      .(log := s.log + [Bcast(c, body, order)], store := SetFate(s.store, body, SentAs(b)))
  }

  // A send on a closed channel panics; the router's recoverer ends that handler and the handler's deferred Remove runs.
  function ApplyDeliver(s: State, c: Cid): State
    requires Sane(s) && Enabled(s, Deliver(c))
  {
    var p := s.clients[c].phase;
    var d := p.rest[0];
    if s.clients[d].phase.Gone? then
      Goto(s, c, Leaving).(badSends := s.badSends + [(d, p.b)], lost := s.lost + [Job(p.b, p.rest)])
    else
      var clients := s.clients[d := Accept(s.clients[d], Live(p.b, Direct))];
      s.(clients := clients[c := clients[c].(phase := Delivering(p.b, p.rest[1..]))])
  }

  // One turn of the submit loop. A worker index out of range and a closed worker channel both panic.
  function ApplyEnqueue(s: State, c: Cid): State
    requires Sane(s) && Enabled(s, Enqueue(c))
  {
    var p := s.clients[c].phase;
    if p.next >= |s.workers| then
      Goto(s, c, Leaving).(badIndex := true, lost := s.lost + [Job(p.b, p.rest)])
    else if s.workers[p.next].closed then
      Goto(s, c, Leaving).(lost := s.lost + [Job(p.b, p.rest)])
    else
      var n := Min(p.chunk, |p.rest|);
      var job := Job(p.b, p.rest[..n]);
      var wk := s.workers[p.next];
      var s' := Goto(s, c, Submitting(p.b, p.rest[n..], p.chunk, p.next + 1));
      if |wk.queue| < WORKER_BUFFER
      then s'.(workers := s.workers[p.next := wk.(queue := wk.queue + [job])])
      else s'.(shardDrops := s.shardDrops + [job])
  }

  function ApplySend(s: State, w: nat): State
    requires Sane(s) && Enabled(s, Send(w))
  {
    var wk := s.workers[w];
    var d := wk.hand.clients[0];
    if s.clients[d].phase.Gone? then
      s.(badSends := s.badSends + [(d, wk.hand.message)], crashed := true)
    else
      s.(clients := s.clients[d := Accept(s.clients[d], Live(wk.hand.message, Via(w)))],
         workers := s.workers[w := wk.(hand := Job(wk.hand.message, wk.hand.clients[1..]))])
  }

  /** The steps can be taken one after another from s. */
  predicate Legal(s: State, steps: seq<Step>)
    decreases |steps|
  {
    Sane(s) && (steps == [] || (Enabled(s, steps[0]) && Legal(Apply(s, steps[0]), steps[1..])))
  }

  function Exec(s: State, steps: seq<Step>): State
    requires Legal(s, steps)
    decreases |steps|
  {
    if steps == [] then s else Exec(Apply(s, steps[0]), steps[1..])
  }

  /** Some interleaving leads from an empty room to s. */
  ghost predicate Reachable(s: State) {
    exists steps :: Legal(Init(s.limit), steps) && Exec(Init(s.limit), steps) == s
  }
}
