// The read loop as the code has it, over the hub's objects, against the trace of FramePipeline.
module ReadLoop {
  import opened Basics
  import opened Sharding
  import opened HubClasses
  import opened Messages
  import opened ChatStore
  import opened FramePipeline

  /** The worker queues after one submit per message, each to the snapshot taken for it. */
  function SubmitEach(queues: seq<seq<Job<Bytes, Client>>>, messages: seq<Bytes>,
      snapshots: seq<seq<Client>>): (r: seq<seq<Job<Bytes, Client>>>)
    requires |messages| == |snapshots| && |queues| > 0
    ensures |r| == |queues|
  {
    if messages == [] then queues
    else
      var n := |messages| - 1;
      SubmitAll(SubmitEach(queues, messages[..n], snapshots[..n]), Job(messages[n], snapshots[n]))
  }

  ghost predicate IsSnapshot(snapshot: seq<Client>, members: set<Client>, sender: Client) {
    NoDuplicates(snapshot) && (set d | d in snapshot) == members - {sender}
  }

  ghost predicate CanServe(room: Room, client: Client)
    reads room, room.clients, client, room.broadcastPool, if room.broadcastPool == null
          then {} else {room.broadcastPool.workers}
  {
    && room.Valid() && !client.closed
    && (room.broadcastPool == null ==> forall d <- room.clients :: d != client ==> !d.closed)
    && (room.broadcastPool != null ==> !room.broadcastPool.closed)
  }

  /** What the clients' channels and the pool's channels hold. */
  datatype Queues = Queues(sends: map<Client, seq<Bytes>>, jobs: seq<seq<Job<Bytes, Client>>>)

  ghost function Now(room: Room, client: Client): Queues
    reads room, room.clients, client, room.broadcastPool, if room.broadcastPool == null
          then {} else {room.broadcastPool.workers}
  {
    Queues(map d | d in room.clients + {client} ::
        d.send, if room.broadcastPool == null then [] else room.broadcastPool.workers[..])
  }

  lemma {:induction false} SubmitEachAppend(queues: seq<seq<Job<Bytes, Client>>>, ms: seq<Bytes>, ss: seq<seq<Client>>,
                                            ms1: seq<Bytes>, ss1: seq<seq<Client>>)
    requires |ms| == |ss| && |ms1| == |ss1| && |queues| > 0
    ensures SubmitEach(queues, ms + ms1, ss + ss1) == SubmitEach(SubmitEach(queues, ms, ss), ms1, ss1)
    decreases |ms1|
  {
    if ms1 == [] {
      assert ms + ms1 == ms && ss + ss1 == ss;
    } else {
      var n := |ms1| - 1;
      SubmitEachAppend(queues, ms, ss, ms1[..n], ss1[..n]);
      assert ms + ms1 == (ms + ms1[..n]) + [ms1[n]] && ss + ss1 == (ss + ss1[..n]) + [ss1[n]];
      SubmitEachLast(queues, ms + ms1[..n], ss + ss1[..n], ms1[n], ss1[n]);
    }
  }

  lemma SubmitEachLast(queues: seq<seq<Job<Bytes, Client>>>, ms: seq<Bytes>, ss: seq<seq<Client>>, m: Bytes,
      s: seq<Client>)
    requires |ms| == |ss| && |queues| > 0
    ensures SubmitEach(queues, ms + [m], ss + [s]) == SubmitAll(SubmitEach(queues, ms, ss), Job(m, s))
  {
    assert (ms + [m])[..|ms|] == ms && (ss + [s])[..|ss|] == ss;
  }

  /** `effects` takes the queues from `before` to `after`: bounces go to the sender, broadcasts to everybody
      else or to the pool. */
  ghost predicate Moved(members: set<Client>, client: Client, pooled: bool, before: Queues, after: Queues,
                        effects: seq<Effect>, snapshots: seq<seq<Client>>)
  {
    && before.sends.Keys == after.sends.Keys == members + {client}
    && after.sends[client] == OfferAll(before.sends[client], Bounces(effects), SEND_BUFFER)
    && |snapshots| == |SentBytes(effects)| && (forall order <- snapshots :: IsSnapshot(order, members, client))
    && (forall d <- members :: d != client ==>
          after.sends[d] == if pooled
              then before.sends[d] else OfferAll(before.sends[d], SentBytes(effects), SEND_BUFFER))
    && (pooled ==> |before.jobs| > 0 && after.jobs == SubmitEach(before.jobs, SentBytes(effects), snapshots))
  }

  // Two stretches of effects one after the other.
  lemma MovedAppend(members: set<Client>, client: Client, pooled: bool, q0: Queues, q1: Queues, q2: Queues,
                    effects: seq<Effect>, snapshots: seq<seq<Client>>, more: seq<Effect>,
                        moreSnapshots: seq<seq<Client>>)
    requires Moved(members, client, pooled, q0, q1, effects, snapshots)
             && Moved(members, client, pooled, q1, q2, more, moreSnapshots)
    ensures Moved(members, client, pooled, q0, q2, effects + more, snapshots + moreSnapshots)
  {
    CollectAppend(effects, more, BounceOf);
    CollectAppend(effects, more, SentOf);
    OfferAllAppend(q0.sends[client], Bounces(effects), Bounces(more), SEND_BUFFER);
    if !pooled {
      forall d | d in members && d != client
        ensures q2.sends[d] == OfferAll(q0.sends[d], SentBytes(effects + more), SEND_BUFFER)
      {
        OfferAllAppend(q0.sends[d], SentBytes(effects), SentBytes(more), SEND_BUFFER);
      }
    } else {
      SubmitEachAppend(q0.jobs, SentBytes(effects), snapshots, SentBytes(more), moreSnapshots);
    }
  }

  // With room in its queue, a member of an unpooled room gets every broadcast of the run, in order and at the end.
  lemma RoomyMemberGetsEverything(members: set<Client>, client: Client, before: Queues, after: Queues,
                                  effects: seq<Effect>, snapshots: seq<seq<Client>>, d: Client)
    requires Moved(members, client, false, before, after, effects, snapshots)
    requires d in members && d != client && |before.sends[d]| + |SentBytes(effects)| <= SEND_BUFFER
    ensures after.sends[d] == before.sends[d] + SentBytes(effects)
  {
    OfferAllKeepsPrefix(before.sends[d], SentBytes(effects), SEND_BUFFER);
    assert SentBytes(effects)[..|SentBytes(effects)|] == SentBytes(effects);
  }

  lemma ViewsOfOne(e: Effect, senderID: Uuid, roomID: Uuid)
    ensures Attempts([e]) == AttemptOf(e) && SentBytes([e]) == SentOf(e) && Bounces([e]) == BounceOf(e)
    ensures Rows([e], senderID, roomID) == RowOf(e, senderID, roomID)
  {
    CollectOne(e, AttemptOf);
    CollectOne(e, SentOf);
    CollectOne(e, BounceOf);
    CollectOne(e, RowsBy(senderID, roomID));
  }

  // An attempt leaves the queues alone.
  lemma AttemptMovesNothing(members: set<Client>, client: Client, pooled: bool, q: Queues, attempt: Effect)
    requires attempt.Attempt? && q.sends.Keys == members + {client} && (pooled ==> |q.jobs| > 0)
    ensures Moved(members, client, pooled, q, q, [attempt], [])
  {
    ViewsOfOne(attempt, 0, 0);
  }

  /** What an effect trace leaves in the store. */
  ghost predicate Stored(client: Client, attempts0: seq<Bytes>, rows0: seq<Row>, attempts: seq<Bytes>, rows: seq<Row>,
      effects: seq<Effect>) {
    && attempts == attempts0 + Attempts(effects)
    && rows == rows0 + Rows(effects, client.userID, client.roomID)
  }

  lemma StoredAppend(client: Client, attempts0: seq<Bytes>, rows0: seq<Row>, attempts1: seq<Bytes>, rows1: seq<Row>,
                     attempts2: seq<Bytes>, rows2: seq<Row>, effects: seq<Effect>, more: seq<Effect>)
    requires Stored(client, attempts0, rows0, attempts1, rows1, effects)
             && Stored(client, attempts1, rows1, attempts2, rows2, more)
    ensures Stored(client, attempts0, rows0, attempts2, rows2, effects + more)
  {
    CollectAppend(effects, more, AttemptOf);
    CollectAppend(effects, more, RowsBy(client.userID, client.roomID));
    Grouped(attempts0, Attempts(effects), Attempts(more));
    Grouped(rows0, Rows(effects, client.userID, client.roomID), Rows(more, client.userID, client.roomID));
  }

  lemma Grouped<T>(a: seq<T>, b: seq<T>, c: seq<T>)
    ensures a + (b + c) == (a + b) + c
  {}

  // The store after one chat frame.
  lemma StoredByChat(codec: Codec, client: Client, input: Input, attempts0: seq<Bytes>, rows0: seq<Row>)
    requires IsChat(codec, input)
    ensures Stored(client, attempts0, rows0, attempts0 + [input.data],
                   rows0 + RowOf(Attempt(input.data, input.saved), client.userID, client.roomID),
                       Effects(codec, client.username, input))
  {
    ViewOfTurn(codec, client.username, input, AttemptOf);
    ViewOfTurn(codec, client.username, input, RowsBy(client.userID, client.roomID));
  }

  // Any other frame leaves the store as it was.
  lemma StoredByNone(codec: Codec, client: Client, input: Input, attempts: seq<Bytes>, rows: seq<Row>)
    requires !IsChat(codec, input)
    ensures Stored(client, attempts, rows, attempts, rows, Effects(codec, client.username, input))
  {
    ViewOfTurn(codec, client.username, input, AttemptOf);
    ViewOfTurn(codec, client.username, input, RowsBy(client.userID, client.roomID));
  }

  // The queues after one chat frame are those its broadcast leaves.
  lemma MovedByChat(codec: Codec, client: Client, members: set<Client>, pooled: bool, before: Queues, after: Queues,
                    input: Input, snapshots: seq<seq<Client>>)
    requires IsChat(codec, input)
    requires Moved(members, client, pooled, before, after,
             SendIf(codec, ChatWire(client.username, input.data, input.saved, input.now)), snapshots)
    ensures Moved(members, client, pooled, before, after, Effects(codec, client.username, input), snapshots)
  {
    var attempt := Attempt(input.data, input.saved);
    AttemptMovesNothing(members, client, pooled, before, attempt);
    MovedAppend(members, client, pooled, before, before, after, [attempt], [],
                SendIf(codec, ChatWire(client.username, input.data, input.saved, input.now)), snapshots);
    assert [] + snapshots == snapshots;
  }

  // A message that encodes is broadcast; one that does not is skipped.
  method MarshalAndBroadcast(codec: Codec, client: Client, room: Room, wire: WireMessage)
    returns (ghost snapshots: seq<seq<Client>>)
    requires CanServe(room, client)
    modifies room.clients`send, if room.broadcastPool == null then {} else {room.broadcastPool.workers}
    ensures CanServe(room, client)
    ensures Moved(room.clients, client, room.broadcastPool != null, old(Now(room, client)), Now(room, client),
            SendIf(codec, wire), snapshots)
  {
    snapshots := [];
    var bytes := codec.marshal(wire);
    if bytes.Some? {
      ViewsOfOne(Sent(wire, bytes.value), 0, 0);
      ghost var snapshot := room.Broadcast(bytes.value, client);
      snapshots := [snapshot];
      assert (set d | d in snapshot) == room.clients - {client};
      assert [bytes.value][..0] == [] && snapshots[..0] == [];
    }
  }

  // The error of an overlong frame goes to nobody but its sender.
  method Complain(codec: Codec, client: Client, room: Room, wire: WireMessage) returns (ghost effects: seq<Effect>)
    requires CanServe(room, client)
    modifies client`send
    ensures CanServe(room, client)
    ensures effects == if codec.marshal(wire).Some? then [Bounced(codec.marshal(wire).value)] else []
    ensures Moved(room.clients, client, room.broadcastPool != null, old(Now(room, client)), Now(room, client), effects,
            [])
  {
    effects := [];
    var errBytes := codec.marshal(wire);
    if errBytes.Some? {
      client.SendRaw(errBytes.value);
      effects := [Bounced(errBytes.value)];
      ViewsOfOne(effects[0], 0, 0);
    }
  }

  // Persisting leaves the queues alone, and gives the message to broadcast whether or not it worked.
  method Persist(codec: Codec, client: Client, room: Room, persister: ChatService, input: Input)
      returns (wire: WireMessage)
    requires CanServe(room, client) && IsChat(codec, input)
    modifies persister.messages
    ensures CanServe(room, client) && Now(room, client) == old(Now(room, client))
    ensures wire == ChatWire(client.username, input.data, input.saved, input.now)
    ensures Stored(client, old(persister.messages.attempts), old(persister.messages.rows), persister.messages.attempts,
            persister.messages.rows,
                   Effects(codec, client.username, input))
  {
    StoredByChat(codec, client, input, persister.messages.attempts, persister.messages.rows);
    var msgID, createdAt, failed := persister.PersistMessage(input.data, client.userID, client.roomID, input.saved);
    wire := WireMessage(Chat, Some(msgID), client.username, Said(input.data), if createdAt == ZERO_TIME
        then input.now else createdAt);
  }

  // A chat frame is persisted, and broadcast whether or not that worked.
  method PersistAndBroadcast(codec: Codec, client: Client, room: Room, persister: ChatService, input: Input)
    returns (ghost snapshots: seq<seq<Client>>)
    requires CanServe(room, client) && IsChat(codec, input)
    modifies room.clients`send, if room.broadcastPool == null
             then {} else {room.broadcastPool.workers}, persister.messages
    ensures CanServe(room, client)
    ensures Moved(room.clients, client, room.broadcastPool != null, old(Now(room, client)), Now(room, client),
                  Effects(codec, client.username, input), snapshots)
    ensures Stored(client, old(persister.messages.attempts), old(persister.messages.rows), persister.messages.attempts,
            persister.messages.rows,
                   Effects(codec, client.username, input))
  {
    var wire := Persist(codec, client, room, persister, input);
    snapshots := MarshalAndBroadcast(codec, client, room, wire);
    MovedByChat(codec, client, room.clients, room.broadcastPool != null, old(Now(room, client)), Now(room, client),
        input, snapshots);
  }

  // One turn of the loop.
  method Turn(codec: Codec, client: Client, room: Room, persister: ChatService, input: Input)
    returns (ghost snapshots: seq<seq<Client>>)
    requires CanServe(room, client)
    modifies client`send, room.clients`send, if room.broadcastPool == null
             then {} else {room.broadcastPool.workers}, persister.messages
    ensures CanServe(room, client)
    ensures Moved(room.clients, client, room.broadcastPool != null, old(Now(room, client)), Now(room, client),
                  Effects(codec, client.username, input), snapshots)
    ensures Stored(client, old(persister.messages.attempts), old(persister.messages.rows), persister.messages.attempts,
            persister.messages.rows,
                   Effects(codec, client.username, input))
  {
    snapshots := [];
    if |input.data| > MAX_MESSAGE_LENGTH {
      StoredByNone(codec, client, input, persister.messages.attempts, persister.messages.rows);
      ghost var effects := Complain(codec, client, room, ErrorWire(input.now));
      return;
    }
    if codec.isTyping(input.data) {
      StoredByNone(codec, client, input, persister.messages.attempts, persister.messages.rows);
      snapshots := MarshalAndBroadcast(codec, client, room, TypingWire(client.username, input.now));
      return;
    }
    snapshots := PersistAndBroadcast(codec, client, room, persister, input);
  }

  // What a stretch of effects does to each queue: the sender is offered the bounces, every other member the broadcasts,
  // or the pool one job for each of them, to a snapshot of the others.
  lemma QueuesMoved(members: set<Client>, client: Client, pooled: bool, before: Queues, after: Queues,
                    effects: seq<Effect>, snapshots: seq<seq<Client>>)
    requires Moved(members, client, pooled, before, after, effects, snapshots)
    ensures before.sends.Keys == after.sends.Keys == members + {client}
    ensures after.sends[client] == OfferAll(before.sends[client], Bounces(effects), SEND_BUFFER)
    ensures forall d <- members :: d != client ==>
              after.sends[d] == if pooled then before.sends[d]
                                else OfferAll(before.sends[d], SentBytes(effects), SEND_BUFFER)
    ensures |snapshots| == |SentBytes(effects)|
    ensures forall order <- snapshots ::
              NoDuplicates(order) && forall d :: d in order <==> d in members && d != client
    ensures pooled ==> |before.jobs| > 0 && after.jobs == SubmitEach(before.jobs, SentBytes(effects), snapshots)
  {
    forall order, d | order in snapshots ensures d in order <==> d in members && d != client {
      assert IsSnapshot(order, members, client);
      assert d in order <==> d in (set e | e in order);
      assert d in members - {client} <==> d in members && d != client;
    }
  }

  // The loop up to the first read error: what it does to the store and to every queue is the trace of its frames.
  method ReadPump(codec: Codec, client: Client, room: Room, persister: ChatService, inputs: seq<Input>)
    returns (ghost snapshots: seq<seq<Client>>)
    requires CanServe(room, client)
    modifies client`send, room.clients`send, if room.broadcastPool == null
             then {} else {room.broadcastPool.workers}, persister.messages
    ensures CanServe(room, client)
    ensures Moved(room.clients, client, room.broadcastPool != null, old(Now(room, client)), Now(room, client),
                  Trace(codec, client.username, inputs), snapshots)
    ensures Stored(client, old(persister.messages.attempts), old(persister.messages.rows), persister.messages.attempts,
            persister.messages.rows,
                   Trace(codec, client.username, inputs))
    ensures persister.messages.attempts == old(persister.messages.attempts)
            + Attempts(Trace(codec, client.username, inputs))
    ensures persister.messages.rows == old(persister.messages.rows)
            + Rows(Trace(codec, client.username, inputs), client.userID, client.roomID)
  {
    ghost var members, pooled, start, trace := room.clients, room.broadcastPool != null, Now(room, client), [];
    ghost var attempts0, rows0 := persister.messages.attempts, persister.messages.rows;
    snapshots := [];
    for k := 0 to |inputs|
      invariant trace == Trace(codec, client.username, inputs[..k])
      invariant CanServe(room, client) && Moved(members, client, pooled, start, Now(room, client), trace, snapshots)
      invariant Stored(client, attempts0, rows0, persister.messages.attempts, persister.messages.rows, trace)
    {
      ghost var q1, attempts1, rows1 := Now(room, client), persister.messages.attempts, persister.messages.rows;
      ghost var more := Turn(codec, client, room, persister, inputs[k]);
      ghost var effects := Effects(codec, client.username, inputs[k]);
      CollectNext(inputs, k, EffectsOf(codec, client.username));
      MovedAppend(members, client, pooled, start, q1, Now(room, client), trace, snapshots, effects, more);
      StoredAppend(client, attempts0, rows0, attempts1, rows1, persister.messages.attempts, persister.messages.rows,
          trace, effects);
      trace, snapshots := trace + effects, snapshots + more;
    }
    assert inputs[..|inputs|] == inputs;
  }
}
