# What is proved about the chat server

This project models the parts of the chat server and its terminal client that are hardest to get right, and proves
properties of the model with Dafny. `dafny verify dfyconfig.toml` checks all of it.

**The room fan-out.** A connection joins a room, is replayed the stored history, then reads frames; each chat or typing
frame is broadcast to the other members. A broadcast takes a snapshot of the members under the room's lock and delivers
outside it, directly or, once ten members have been in the room at once, through a pool of ten workers with bounded
queues. `RoomProtocol` is one room as a step relation: every goroutine is a small program with a program counter, a step
is one lock section, one channel operation or one unlocked read, and the steps of all goroutines interleave freely.
`HubProtocol` puts any number of such rooms under a hub, with racing joins and removals. What is proved there holds in
every reachable state or over every run:

- conservation: every delivery of every broadcast is in exactly one place (`Accounting`);
- the pool refines the plain loop, and nobody gets a message twice or their own (`Accounting`);
- a broadcast is offered to exactly the members in between their Add and their Remove (`Membership`);
- a joiner has no gap between its history page and the live messages (`JoinHistory`);
- a big room has a pool or an Add in flight that owes one; at most one pool is ever made (`Activation`);
- one sender's messages reach a client in order except through different workers (`Lanes`, `Ordering`), and two that
  workers hold for a client can overtake each other exactly when the workers differ and have nothing for a removed
  client at or before them (`WorkerLines`, `Overtaking`);
- a shutdown that returns has drained every accepted job (`PoolShutdown`), and one that waits can still return exactly
  when no worker holds a delivery for a removed client (`ShutdownReturn`);
- exactly when removing a client is safe, at any point of a pool's life (`RemovalSafety`);
- rooms are isolated, and exactly when there is one room object per ID (`HubProtocol`);
- exactly when no room is shut down twice (`HubShutdown`).

`HubClasses`, `ReadLoop`, `ChatStore`, `History` and `HubService` are the same code as classes and loops, method by
method, each against a specification function. `Uninterrupted` shows that a run of protocol steps that nothing
interrupts does what those methods do, and `FrameSteps` that the protocol's steps of one read loop do to the room what
the loop's trace of its frames says.

**The frame pipeline and the history replay.** `FramePipeline` has the trace theorems of the read loop over every frame
sequence, every outcome of saving and every outcome of encoding; `History` says what a joiner's queue holds, and
`ReplayLive` that it is, byte for byte, what was broadcast live. What is broadcast, bounced, stored and replayed is also
said in full, message by message.

**The rate limiter.** `RateLimit` has a counter per user in a cache with expiry, where counting a request and setting the
expiry are separate steps of concurrent requests. `RetryAfter` has what a rejected user may rely on, and `FixedWindow`
shows that uninterrupted checks decide exactly what a fixed window over the times of the calls decides.

**The client.** `RoomList` is the terminal client's room selection and reconnect delay over whole runs. `ConfigFile` is
the one-line edit that saves an API key.

Where the code does not keep a promise one might expect of it, the model keeps to the code, a lemma gives a run that
shows it, and another says exactly when the promise holds:

- `Room.Remove` closes a send channel that an older snapshot may still be delivering to. Removing is safe if and only if
  no worker holds a delivery to that client and no loop can still make one (`RemovalSafety`). In the direct path the
  panic is caught by the router's recoverer, so that handler ends and leaves the room; in a pool worker it ends the
  process.
- Two joins that both look a room up before either creates it end in two room objects with one ID. There is one object
  per ID if and only if each room is created for an ID that no object has; in runs without removals, if and only if each
  is created for an ID that is not in the map at that moment, which a second look under the lock would check
  (`HubProtocol`).
- `Hub.Shutdown` leaves the rooms in the map, so a later `Hub.Remove` shuts one down again, and starts by closing a
  channel that is closed. Over any run no room is shut down twice, or about to be, if and only if every lock section of
  `Hub.Remove`, and every `Hub.Shutdown`, finds only rooms that were not shut down before (`HubShutdown`).
- A pool's shutdown waits for its workers, and a worker that holds a delivery for a removed client never leaves: it can
  only end by sending on the closed channel, which ends the process. A waiting shutdown can return if and only if no
  worker holds such a delivery (`ShutdownReturn`).
- In a pooled room two broadcasts of one sender can overtake each other on the way to the same member (`Reordering`).
  They never do when the member has the same shard number, its place in the snapshot over the shard size, in both
  snapshots (`Ordering`); and while workers hold both of them for the member, the later one can arrive first if and
  only if these numbers, and so the workers, differ, and neither worker has anything for a removed client at or before
  its delivery (`Overtaking`).
- If the call that sets a counter's expiry fails, the counter never expires, and its user is locked out for good once the
  limit is used up; for every positive limit a run shows it, and with a positive limit and window some continuation
  admits the user again from every other state (`RetryAfter`). `Retry-After` is right exactly when the expiry is set.
- Over a sliding window the limiter admits up to `2 * maxReqs - 1` requests, never more, and that many do occur.
- With a history limit over 256 a joiner's queue overflows during the replay, and it is the newest messages that are lost.
- A refreshed room list can leave the selection past the list's end, and opening it then crashes the client (`RoomList`).

## Model

| member | source | states |
|---|---|---|
| `Sharding.OfferAllKeepsPrefix` | internal/server/hub/client.go:136-142 | sending a list through a full-drops channel keeps exactly the longest prefix that fits |
| `Sharding.ChunkSizeIsCeiling` | internal/server/hub/broadcast_pool.go:55 | the shard size is the least that covers all clients with the workers there are |
| `Sharding.ChunksConcatenateBack` | internal/server/hub/broadcast_pool.go:55-61 | the shards are non-empty, no longer than the shard size, and in order they are the client list |
| `Sharding.ChunkAt` | internal/server/hub/broadcast_pool.go:56-61 | shard k is the slice of the client list at k times the shard size |
| `Sharding.ChunkCount` | internal/server/hub/broadcast_pool.go:55-56 | the number of shards is the client count over the shard size, rounded up |
| `Sharding.ShardsFitWorkers` | internal/server/hub/broadcast_pool.go:55-63 | for every client and worker count there are at most as many shards as workers |
| `Sharding.EachClientInOneShard` | internal/server/hub/broadcast_pool.go:56-61 | every client is in exactly one shard |
| `Sharding.SubmitInFull` | internal/server/hub/broadcast_pool.go:50-68 | a submit gives worker k the slice of the client list at k times the least covering shard size, unless there is none or it holds 16 jobs already |
| `RoomInvariants.EveryReachableStateIsWellFormed` | internal/server/hub/room.go:28-91 | in every reachable state buffers are within capacity, no worker index is out of range, at most one pool was made, and a send channel is closed once, when its client is removed |
| `RoomInvariants.StepStaysReachable` | internal/server/hub/room.go:28-98 | reachable states are closed under every enabled step, and every such step is defined |
| `RoomInvariants.ShardRoom` | internal/server/hub/broadcast_pool.go:56-61 | after each turn of the submit loop the clients left still fit the workers left |
| `Accounting.EveryDeliveryIsInOnePlace` | internal/server/hub/broadcast_pool.go:40-68 | conservation: consumed, queued, refused, at the sender, at a worker, dropped with a shard and given up add up to one for a client in the snapshot and to zero otherwise |
| `Accounting.NoEchoNoRepeat` | internal/server/hub/room.go:63-83 | a broadcast in a buffer is there once and came from another client of the room |
| `Accounting.PoolRefinesPlainLoop` | internal/server/hub/room.go:59-91 | at quiescence with nothing lost, pooled or not, every client holds the broadcasts the plain loop gives it, and the same buffer when there is at most one |
| `Membership.OfferedExactlyToMembers` | internal/server/hub/room.go:52-83 | a broadcast is offered to exactly the other clients added before it and not removed by then |
| `Membership.StepSettles` | internal/server/hub/room.go:70-91 | a delivery that was offered, dropped or given up stays so |
| `Membership.PendingOnlyFalls` | internal/server/hub/room.go:52-57 | once a client is removed, nothing adds to the deliveries under way to it |
| `RemovalSafety.UnexposedIsSilent` | internal/server/hub/room.go:70-73 | while no removed client is exposed, that is, no worker holds a delivery for one and no loop can still make one, no step sends on a closed client channel |
| `RemovalSafety.StepExposes` | internal/server/hub/room.go:52-91 | no step exposes a removed client that was not exposed |
| `RemovalSafety.CarefulRunsNeverSendOnClosed` | internal/server/hub/room.go:52-91 | if clients are only removed while they are not exposed, no run sends on a closed client channel or kills a worker |
| `Membership.ClosedSendsComeFromOlderSnapshots` | internal/server/hub/room.go:52-73 | every send on a closed client channel is of a broadcast that started before the client's Remove |
| `RemovalSafety.ExposedClientHitsClosed` | internal/server/hub/room.go:52-73 | from every reachable live state with an exposed removed client some continuation sends on a closed client channel |
| `RemovalSafety.SilentExactlyWhenUnexposed` | internal/server/hub/room.go:52-91 | in every reachable live state, at any point of the pool's life and shutdown, no removal-free continuation sends on a closed client channel if and only if no removed client is exposed |
| `RemovalSafety.RemoveIsSafeExactlyWhenUnexposed` | internal/server/hub/room.go:52-57 | after removing a client the closed client channels stay silent if and only if they were silent before and the client was not exposed |
| `RemovalSafety.SendOnClosedChannelIsReachable` | internal/server/hub/room.go:52-73 | a run of two members ends in a send on a closed client channel |
| `JoinHistory.JoinHasNoGap` | internal/server/api/ws_handler.go:87-93 | a row another member saved is in the joiner's page, or older than `limit` later rows, or saved later and then still to be broadcast, unencodable, or offered to the joiner unless it had left |
| `JoinHistory.EachWayAtMostOnce` | internal/server/api/ws_handler.go:87-119 | page rows arrive in order and once, and a row is carried by at most one broadcast, received once |
| `JoinHistory.MemberHasEveryRow` | internal/server/api/ws_handler.go:87-119 | for one member and one row another member broadcast: unless `limit` newer rows precede the query, the member has the row from its page or live exactly when that one delivery was not refused, dropped, given up, unencodable or still to come |
| `JoinHistory.SentRowKeeps` | internal/server/hub/client.go:84-107 | handing a saved row to a broadcast or giving it up keeps row, holder and broadcast in step |
| `JoinBuffer.NothingIsReadBeforeTheLoop` | internal/server/api/ws_handler.go:87-93 | in every reachable state nothing was taken from the buffer of a client whose read loop has not begun, so its replay and the broadcasts that came meanwhile share 256 items |
| `Activation.BigRoomsHavePools` | internal/server/hub/room.go:28-50 | a room at the threshold has a pool or an Add in flight that owes it; with no Add in flight it has one |
| `Activation.PoolIsForever` | internal/server/hub/room.go:39-50 | over every run a pool is never unset, never made twice, and keeps its ten workers |
| `Lanes.DirectBeforePooled` | internal/server/hub/room.go:59-91 | in every reachable state one number divides the broadcasts that go directly from the later ones that go through workers |
| `Lanes.WorkerIsShardNumber` | internal/server/hub/broadcast_pool.go:55-63 | a broadcast received through a worker came through the worker whose number is the client's place in the snapshot over the shard size |
| `Ordering.SenderOrderIsKept` | internal/server/hub/room.go:59-91 | two broadcasts of one sender are received in the order they were started unless both came through workers and the workers differ |
| `Ordering.SameShardKeepsSenderOrder` | internal/server/hub/broadcast_pool.go:50-68 | they are received in order whenever the client has the same shard number in both snapshots |
| `Ordering.DirectRoomKeepsSenderOrder` | internal/server/hub/room.go:63-75 | in a room without a pool every client sees each sender's broadcasts in the order they were started |
| `Ordering.PendingIsNotThere` | internal/server/hub/room.go:70-91 | a broadcast still on its way to a client is not in its buffer |
| `Reordering.PooledRoomCanReorder` | internal/server/hub/room.go:77-91 | a run in which a member receives the second of two broadcasts of one sender before the first |
| `WorkerLines.StepMovesLine` | internal/server/hub/broadcast_pool.go:40-68 | whatever step is taken, what a worker has to deliver, in order, only grows at its end, or loses its first delivery, made to a connected client |
| `WorkerLines.StepKeepsBlocked` | internal/server/hub/broadcast_pool.go:40-46 | a delivery with one for a removed client at or before it stays so under every step |
| `Overtaking.WorkerDelivers` | internal/server/hub/broadcast_pool.go:40-46 | a worker with nothing for a removed client at or before a delivery can be run until that delivery is the last item in its client's buffer |
| `Overtaking.HeldArrivesExactlyWhenWayIsClear` | internal/server/hub/broadcast_pool.go:40-46 | what a worker holds for a client can still reach it if and only if the worker has nothing for a removed client at or before it |
| `Overtaking.DifferentWorkersCanOvertake` | internal/server/hub/broadcast_pool.go:40-46 | what two different workers hold for a client, with nothing for a removed client at or before it, can reach the client in either order |
| `Overtaking.OvertakingExactlyBetweenClearWorkers` | internal/server/hub/broadcast_pool.go:40-68 | of two broadcasts of one sender that workers hold for a client, the later can arrive first if and only if the workers differ and neither has anything for a removed client at or before its delivery |
| `PoolShutdown.WorkerStepsUseWork` | internal/server/hub/broadcast_pool.go:40-46 | every worker step that does not kill the process does one unit of its work |
| `PoolShutdown.ClosedPoolGetsNoWork` | internal/server/hub/broadcast_pool.go:70-76 | once the worker channels are closed, no step of any goroutine adds work or reopens one |
| `PoolShutdown.ClosedPoolCanMove` | internal/server/hub/broadcast_pool.go:40-46 | a closed pool is never stuck before all its workers have left |
| `PoolShutdown.ShutdownDrains` | internal/server/hub/broadcast_pool.go:70-76 | when the shutdown may return, every delivery a worker held at any earlier point has been offered to its client |
| `PoolShutdown.EveryRunOfAClosedPoolIsBounded` | internal/server/hub/broadcast_pool.go:40-46 | whatever else interleaves, over every run each step of a worker of a closed pool does one unit of its work and nothing adds any, so they take no more steps than there is work |
| `PoolShutdown.ClosedPoolDrains` | internal/server/hub/broadcast_pool.go:40-46 | a closed pool whose clients are connected reaches its end in exactly as many worker steps as there is work |
| `PoolShutdown.ShutdownCanReturn` | internal/server/hub/broadcast_pool.go:70-76 | a waiting shutdown whose workers hold nothing for a removed client can be brought to its return by worker steps alone, exactly as many as there is work |
| `ShutdownReturn.ShutdownReturnsExactlyWhenTargetsAreOpen` | internal/server/hub/broadcast_pool.go:70-76 | in every reachable live state a waiting shutdown can still return if and only if no worker holds a delivery for a removed client |
| `ShutdownReturn.WaitingForeverIsReachable` | internal/server/hub/broadcast_pool.go:70-76 | a run after which the shutdown waits and no continuation lets it return |
| `HubProtocol.AnyStepExtendsARun` | internal/server/hub/hub.go:23-63 | every legal run of the hub can be continued by any step that can be taken |
| `HubProtocol.RoomsAreIsolated` | internal/server/hub/hub.go:23-45 | in every reachable state a broadcast in a client's buffer came from a different client that asked for the same room ID, even if two room objects serve it |
| `HubShutdown.ShutOnceExactlyWhenFoundUnshut` | internal/server/hub/hub.go:53-82 | over every run no room is shut down twice, or about to be, if and only if that held at the start and every Hub.Remove lock section and every Hub.Shutdown found only rooms that had not been shut down |
| `HubShutdown.DoomedExactlyWhenRemovalsUnderWayShutTwice` | internal/server/hub/hub.go:53-63 | "shut down twice or about to be" holds exactly when the removals under way, going on alone, can bring some room to a second shutdown |
| `HubShutdown.EachRoomIsShutDownAtMostOnce` | internal/server/hub/hub.go:53-82 | so with at most one Hub.Shutdown and no Hub.Remove lock section after it, racing removals shut no room down twice |
| `HubShutdown.RemoveAfterStopShutsAgain` | internal/server/hub/hub.go:53-82 | the steps of Hub.Shutdown and then of one call of Hub.Remove leave a room shut down twice exactly when it is the room in the map under that ID |
| `HubShutdown.FirstShutdownFindsChannelsOpen` | internal/server/hub/hub.go:58-62 | in every reachable state, a removal about to shut down a room that was not shut down before finds all its worker channels open |
| `HubShutdown.RoomIsHosted` | internal/server/hub/hub.go:23-45 | whatever a room whose clients asked for one ID can come to before its shutdown, it can come to as the only room of a hub |
| `HubShutdown.SecondShutdownIsReachable` | internal/server/hub/hub.go:53-82 | a run in which Hub.Shutdown has shut down a room with a pool and returned from it, and Hub.Remove is about to shut it down again with all its channels closed |
| `HubShutdown.ShutdownCountIsShutState` | internal/server/hub/hub.go:53-82 | in every reachable state a room's own shutdown has begun exactly when Room.Shutdown has been called on it |
| `HubProtocol.OneRoomPerIDExactlyWhenCreatesAreUnused` | internal/server/api/ws_handler.go:68-80 | over every run, removals included, there is one room object per ID if and only if every room was created for an ID that no object had |
| `HubProtocol.OneRoomPerIDExactlyWhenMapIsRechecked` | internal/server/hub/hub.go:23-45 | over every run without removals, if and only if every room was created for an ID that was not in the map at that moment |
| `HubProtocol.SerialJoinsShareRooms` | internal/server/api/ws_handler.go:68-80 | so joins of one ID that do not overlap between lookup and creation share one object, whatever else interleaves, as long as no room is removed |
| `HubProtocol.RacingJoinsSplitARoom` | internal/server/api/ws_handler.go:68-80 | two overlapping joins end up in two room objects with one ID |
| `HubProtocol.LookupFindsTheNewest` | internal/server/hub/hub.go:23-45 | in every reachable state a lookup finds the newest room object of its ID, so creating a room hides those before it |
| `Uninterrupted.AcceptIsOffer` | internal/server/hub/client.go:136-142 | a send step of the protocol is the non-blocking send of the method |
| `Uninterrupted.PooledBroadcastIsSubmit` | internal/server/hub/broadcast_pool.go:50-68 | the snapshot, the submit turns and the end of one pooled broadcast, with nothing in between, leave the worker queues that Submit leaves |
| `Uninterrupted.DirectRunOffersToAll` | internal/server/hub/room.go:70-75 | the deliveries of one direct broadcast, with nothing in between, offer the message to every client of the snapshot and nobody else |
| `Uninterrupted.WorkerRunIsWorker` | internal/server/hub/broadcast_pool.go:40-46 | the takes and sends of one worker, with nothing in between, offer every message of its jobs to each of their clients in order, as the worker method does |
| `FrameSteps.TurnRuns` | internal/server/hub/client.go:56-107 | steps of one client alone do to the room what the trace of a frame says: its notices in the client's own buffer, its row in the store, and one broadcast to all others, of a typing event, of the saved row, or of a chat whose save failed |
| `FrameSteps.FramesRun` | internal/server/hub/client.go:50-108 | for every sequence of frames, steps of one client alone leave in the room as many notices, rows and broadcasts as the trace has, and in an unpooled room each other member is offered exactly those broadcasts, in order |
| `FrameSteps.StoreIsTheSaves` | internal/server/hub/client.go:84-87 | over every run the store's rows are, in order, those of the run's successful saves, here and by others, each with its author |
| `HubClasses.Client.constructor` | internal/server/hub/client.go:29-37 | a new client has an empty, open send buffer |
| `HubClasses.Client.SendRaw` | internal/server/hub/client.go:136-142 | the buffer gets the message at its end unless it holds 256 |
| `HubClasses.BroadcastPool.constructor` | internal/server/hub/broadcast_pool.go:19-30 | a new pool has an empty queue per worker |
| `HubClasses.BroadcastPool.Submit` | internal/server/hub/broadcast_pool.go:50-68 | every worker queue is offered exactly its shard, and no index is out of range |
| `HubClasses.BroadcastPool.RunJob` | internal/server/hub/broadcast_pool.go:41-45 | every client gets the job's message once for each place it has in the job's list, as far as 256 items go |
| `HubClasses.BroadcastPool.NextJobOf` | internal/server/hub/broadcast_pool.go:41-45 | one turn of the worker's loop: the oldest job leaves the channel and is offered to each of its clients |
| `HubClasses.BroadcastPool.Worker` | internal/server/hub/broadcast_pool.go:40-46 | a worker on a closed channel empties it, and every client gets the message of each place that names it in the queue, in the queue's order, as far as 256 items go |
| `HubClasses.BroadcastPool.Shutdown` | internal/server/hub/broadcast_pool.go:70-76 | shutdown leaves empty queues, and every client's buffer keeps what it held and gains, as far as 256 items go, one message for each place that names the client in some worker's queue, each worker's in order |
| `HubClasses.DrainDelivers` | internal/server/hub/broadcast_pool.go:40-46 | offering a client the messages of all queued jobs is such a delivery: each place that names it counts once, and each worker's places keep their order |
| `HubClasses.Room.constructor` | internal/server/hub/room.go:19-26 | a new room has no clients and no pool |
| `HubClasses.Room.Add` | internal/server/hub/room.go:28-37 | the client is a member, and a room without a pool gets one exactly at ten members |
| `HubClasses.Room.ActivatePool` | internal/server/hub/room.go:39-50 | afterwards there is a pool: the one there was, or a new empty one |
| `HubClasses.Room.Remove` | internal/server/hub/room.go:52-57 | the client is no member and its channel is closed |
| `HubClasses.Room.Snapshot` | internal/server/hub/room.go:63-69 | the snapshot holds every member but the sender once |
| `HubClasses.Room.Broadcast` | internal/server/hub/room.go:59-91 | without a pool every other member is offered the message and nobody else; with one the queues are those of Submit |
| `HubClasses.Room.Shutdown` | internal/server/hub/room.go:94-98 | the pool, if any, is closed and drained: its queues are empty and every queued message was delivered to each place that names a client, as far as its buffer goes |
| `HubService.Hub.CreateRoom` | internal/server/hub/hub.go:23-33 | a new empty room under the ID, in place of any that was there |
| `HubService.Hub.GetRoom` | internal/server/hub/hub.go:35-45 | the room of the ID, or none |
| `HubService.Hub.Remove` | internal/server/hub/hub.go:53-63 | the ID is gone from the map and its room's pool is closed and drained, every queued message delivered as far as the buffers go; an unknown ID changes nothing |
| `HubService.Join` | internal/server/api/ws_handler.go:68-91 | an uninterrupted join enters the room of the ID, making it only if there is none, and holds the replay that `History.ReplayInFull` describes |
| `FramePipeline.AttemptsAreTheChatFrames` | internal/server/hub/client.go:56-84 | the contents tried to be stored are, in order, exactly the frames within 300 bytes that are not typing events |
| `FramePipeline.ChatsAreTheAttempts` | internal/server/hub/client.go:84-107 | the chat broadcasts are, in order, the messages of those frames that encode, failed saves included |
| `FramePipeline.ChatsMatchAttempts` | internal/server/hub/client.go:84-107 | when all encode, the k-th chat broadcast carries the k-th attempted content under the sender's name |
| `FramePipeline.TypingIsNeverPersisted` | internal/server/hub/client.go:68-82 | without the typing frames the attempts, chats, bounces and stored rows are the same, and no typing event is broadcast |
| `FramePipeline.TypingIsAnnounced` | internal/server/hub/client.go:68-82 | the k-th typing broadcast is a typing event with the user's name, no id and no content, at the time of the k-th typing frame that encodes |
| `FramePipeline.OverlongOnlyBounces` | internal/server/hub/client.go:56-66 | overlong frames change nothing in the trace but the bounces, and the k-th bounce encodes the error notice at the time of the k-th frame over 300 bytes whose notice encodes |
| `FramePipeline.BroadcastsInFull` | internal/server/hub/client.go:68-107 | the k-th broadcast encodes the message of the k-th frame within 300 bytes that encodes: a typing event with the user's name and the time, or a chat with the database's id and time, the nil id and the clock's time where it gave none, the user's name and the frame |
| `FramePipeline.StoredInFull` | internal/server/hub/client.go:84-87 | one attempt for each frame within 300 bytes that is no typing event, in order, and one row for each of these whose save succeeded, under the sender and the room |
| `FramePipeline.RowsAreTheSavedChats` | internal/service/chat.go:49-59 | the rows stored are, in order, those of the chat frames whose save succeeded |
| `FramePipeline.ReplayRepeatsLive` | internal/server/hub/client.go:84-99 | what a joiner is later replayed of a client's rows is, message for message, what was broadcast live, if and only if the database filled in the creation time of each (or the clock had none either) |
| `ReplayLive.ReplayedBytesAreLiveBytes` | internal/server/api/ws_handler.go:101-118 | the bytes a joiner is replayed of a member's stored messages are the bytes that were broadcast live for the saved frames, if their times were filled in and the member has its name |
| `ChatStore.MessageStore.Create` | internal/repository/message.go:25-27 | a saved row is added at the end with what the database filled in; a failed save adds none |
| `ChatStore.ChatService.PersistMessage` | internal/service/chat.go:49-59 | the content is tried once; a failure gives the nil id and the zero time |
| `ChatStore.ChatService.GetMessageHistory` | internal/service/chat.go:31-47 | the result pairs each row of the page with its sender's name, in order; a failed query gives nothing |
| `ReadLoop.MovedAppend` | internal/server/hub/client.go:50-108 | the effects of two stretches of frames on all queues compose |
| `ReadLoop.QueuesMoved` | internal/server/hub/client.go:50-108 | a stretch of frames offers its bounces to the sender, its broadcasts to every other member or, as one job each for a snapshot of the others, to the pool |
| `ReadLoop.RoomyMemberGetsEverything` | internal/server/hub/room.go:70-75 | a member with room in its queue gets every broadcast of a run, in order and at the end |
| `ReadLoop.MarshalAndBroadcast` | internal/server/hub/client.go:101-107 | a message that encodes is offered to all others or to the pool; one that does not is skipped |
| `ReadLoop.Complain` | internal/server/hub/client.go:56-66 | the error is offered to the sender alone |
| `ReadLoop.Persist` | internal/server/hub/client.go:84-99 | the store has the attempt, the queues are untouched, and the message carries the id and time to use |
| `ReadLoop.Turn` | internal/server/hub/client.go:50-108 | one turn does to the store and to every queue what the trace of its frame says |
| `ReadLoop.ReadPump` | internal/server/hub/client.go:47-109 | the loop does to the store and to every queue what the trace of all its frames says |
| `History.PageIsTheNewest` | internal/repository/message.go:35-44 | a first page holds the newest min(limit, total) messages of the room, newest first |
| `History.PageInFull` | internal/repository/message.go:35-44 | a first page holds rows of the room only, none more often than stored, as many as the limit and the room allow, newest first, and the room's other rows are no newer than any of them |
| `History.PageAfterPage` | internal/repository/message.go:35-44 | a page at an offset is what follows the first page of that many rows |
| `History.QueryHasAResult` | internal/repository/message.go:35-44 | the query has a result for every store, limit and offset |
| `History.SendHistory` | internal/server/api/ws_handler.go:96-119 | the countdown loop offers the page oldest first; a failed query sends nothing |
| `History.FreshClientHistory` | internal/server/api/ws_handler.go:101-118 | a fresh client's queue holds, in order of creation, the encoded chats of the oldest 256 rows of the page, each with its row's id, its sender's name, its content and its time; up to a limit of 256 these are the newest min(limit, total) messages of the room |
| `History.ReplayInFull` | internal/server/api/ws_handler.go:101-118 | for any page and any codec, the replay sends from the page's last row to its first the encoding of each chat that encodes, with its row's id, its sender's name or none, its content and its time |
| `History.ReplayIsWholeExactlyWhenItFits` | internal/server/api/ws_handler.go:101-118 | the replay reaches a fresh client whole if and only if it is at most 256 messages |
| `RateLimit.RunKeepsInv` | internal/middleware/ratelimit.go:83-97 | over every interleaving the cache, the requests under way and the decisions taken fit one history of counter generations |
| `RateLimit.GenerationsApart` | internal/middleware/ratelimit.go:83-97 | requests of counter generations more than one apart are more than windowSecs * 1000 milliseconds apart |
| `RateLimit.SlidingIntervalBound` | internal/middleware/ratelimit.go:83-97 | any half-open interval of windowSecs * 1000 milliseconds admits at most 2 * maxReqs - 1 requests of one user |
| `RateLimit.NoLimitNoAdmission` | internal/middleware/ratelimit.go:83-97 | a limit of zero or less admits nobody |
| `RateLimit.UsersAreIndependent` | internal/middleware/ratelimit.go:57-97 | the outcomes for a user in any run over many users are those of the user's own calls alone |
| `RetryAfter.WaitingAWindowHelpsExactlyWhenExpirySet` | internal/middleware/ratelimit.go:73-96 | a silence of one window always clears a user's counter if and only if its expiry is set when the silence begins |
| `RetryAfter.FailedExpiryLocksOut` | internal/middleware/ratelimit.go:83-97 | for every positive limit: a counted request, its failing expiry call and as many more requests as the limit lock the user out |
| `RetryAfter.LockedOutForever` | internal/middleware/ratelimit.go:89-96 | after a failed expiry call and a used-up limit, no later request of the user is ever admitted |
| `RetryAfter.AdmittedAgainExactlyWhenNotLockedOut` | internal/middleware/ratelimit.go:83-97 | for every positive limit and window, in every state of every run, some continuation admits the user again if and only if the user is not locked out |
| `RetryAfter.RetryAfterIsSound` | internal/middleware/ratelimit.go:73-77 | with atomic checks, a user silent for a window after a check is admitted next, whatever was rejected before |
| `RetryAfter.NoWindowNoLimit` | internal/middleware/ratelimit.go:89-96 | with a window of zero every atomic check is admitted |
| `RetryAfter.ChecksAreRuns` | internal/middleware/ratelimit.go:83-97 | atomic checks are one of the interleavings |
| `RetryAfter.SlidingBoundIsReached` | internal/middleware/ratelimit.go:83-97 | for every limit and window some run admits 2 * maxReqs - 1 requests of one user in one interval |
| `FixedWindow.FixedWindowDecides` | internal/middleware/ratelimit.go:83-97 | in every run of uninterrupted checks a request is admitted if and only if the user's window, defined by the times of the calls alone, holds no more than maxReqs calls with it, and limited otherwise |
| `FixedWindow.LimitHoldsForTheWholeWindow` | internal/middleware/ratelimit.go:73-97 | from a user's request after a window of silence on, and for windowSecs * 1000 milliseconds, exactly the user's first maxReqs requests are admitted and every later one is limited; the first at that instant or after is admitted again |
| `RateLimiterClasses.CheckTraceDecides` | internal/middleware/ratelimit.go:83-97 | the calls of one check are a legal run that takes exactly one decision and touches no other key |
| `RateLimiterClasses.AtomicCheckIsItsCalls` | internal/middleware/ratelimit.go:83-97 | an atomic check is the run of its two calls |
| `RateLimiterClasses.CheckedInFull` | internal/middleware/ratelimit.go:83-97 | the outcome and the cache after one check, by cases: failed calls fail the check, a missing or expired counter starts at one and gets windowSecs * 1000 milliseconds, a live one counts on and keeps its expiry, nobody else's changes |
| `RateLimiterClasses.RateLimiter.IsAllowed` | internal/middleware/ratelimit.go:83-97 | the method's answer and the cache it leaves are those of its calls in the interleaving machine |
| `RateLimiterClasses.RateLimiter.Middleware` | internal/middleware/ratelimit.go:57-81 | the next handler runs exactly for admitted checks and for requests without a user; rejection names the window, failure is an internal error |
| `RoomList.LessIsLexicographic` | internal/client/ui/update.go:32-34 | one name comes before another exactly when it is a proper prefix of it or smaller where they first differ |
| `RoomList.RefreshKeepsSelection` | internal/client/ui/update.go:25-45 | a refresh shows the server's rooms with ascending names and keeps the selected room selected if it is still there, the index otherwise |
| `RoomList.CreatedRoomIsSelected` | internal/client/ui/update.go:53-66 | a created room joins the list, whose names ascend, is selected, is connected to, and the list gets the focus |
| `RoomList.IndexInRangeExactlyWhenRefreshesAreKind` | internal/client/ui/update.go:25-45 | over a whole run the index stays in range if and only if each refresh holds the selected room or reaches as far as the index |
| `RoomList.OpeningCrashesOnlyAfterUnkindRefresh` | internal/client/ui/update.go:25-45 | if opening the selection reads past the list at some point of a run, an earlier refresh neither held the selected room nor reached as far as the index |
| `RoomList.OnlyFirstLoadConnects` | internal/client/ui/update.go:32-50 | in every run a refresh connects by itself, to a room whose name none comes before, exactly when the client has never connected and there is a room |
| `RoomList.EveryRoomCanBeOpened` | internal/client/ui/update.go:168-188 | from any index, also a stale one, the up or down key pressed as often as the distance and then enter opens any room of a focused list, after which the keys leave the list alone |
| `RoomList.ArrowsStayInTheList` | internal/client/ui/update.go:175-188 | the arrow keys keep an index in range, change nothing else, and do nothing at the ends |
| `RoomList.StaleIndexIsReachable` | internal/client/ui/update.go:25-45 | a run of four messages after which opening the selection reads past the list |
| `RoomList.ErrorWaits` | internal/client/ui/update.go:94-105 | in every run the (k+1)-th error since the last connection waits min(2^k, 30) seconds, and before any connection none waits |
| `RoomList.ConnectedToTheLast` | internal/client/ui/update.go:69-77 | in every run the client is connected to the room of the last connection |
| `RoomList.FirstErrorWaitsASecond` | internal/client/ui/update.go:69-105 | in every run the first error after a connection waits 1000 milliseconds |
| `RoomList.NextErrorWaitsTwice` | internal/client/ui/update.go:94-105 | each further error waits twice as long as the one before, but at most 30000 milliseconds, whatever else came between |
| `RoomList.Screen.SelectRoom` | internal/client/ui/update.go:39-44 | the search loop selects the first room with the ID and otherwise leaves the index |
| `RoomList.Screen.Receive` | internal/client/ui/update.go:12-190 | handling a message changes the fields and gives the command that the reducer function says |
| `ConfigFile.JoinUndoesSplit` | cmd/register.go:88-101 | joining the lines of a text gives the text |
| `ConfigFile.SplitUndoesJoin` | cmd/register.go:88-101 | splitting joined lines gives the lines |
| `ConfigFile.SaveAPIKey` | cmd/register.go:76-102 | what is written, or that nothing is |
| `ConfigFile.KeyLineStartsWithTheName` | cmd/register.go:91 | a line holds the key exactly when api_key comes right after its leading white space |
| `ConfigFile.SpacesAreUnicodeWhiteSpace` | cmd/register.go:91 | the white space that is trimmed is that of Unicode, by code point |
| `ConfigFile.OnlyTheKeyLineChanges` | cmd/register.go:88-101 | the key is saved exactly when some line starts with its name, and then that line alone changes |
| `ConfigFile.LastSaveWins` | cmd/register.go:88-101 | saving twice leaves the file that saving only the second key leaves |

## Left out

- The message limit of 300 is announced in characters but compared with a frame's length in bytes; the model compares bytes, as the code does, and has no notion of a character.
- A second `Room.Shutdown` of the same room is counted, and `HubShutdown` shows that it can meet closed channels, but what closing them again does to its caller is not modelled. In the model a second call does nothing to the room, also where the first found no pool and one was made since.
- `Hub.Shutdown` holds the hub's lock while it shuts one room down after the other, and `Room.Shutdown` reads the pool field when it is called. In `HubProtocol` it begins the shutdown of all rooms at one instant, reading every pool field then, and leaves the lock free: joins and removals do not wait for it, and a pool made while it is under way is not shut down.
- A broadcast that submits to a pool being shut down sends on a closed worker channel and panics. The model ends that handler and counts its deliveries as given up, but the closed channels that `RemovalSafety` speaks of are those of clients only.
- WebSocket, HTTP, routing, TLS and contexts: frames are an input sequence, and the writer is a step that takes the oldest item of a client's queue.
- JSON: encoding is a function of the message that may fail, and whether a frame is a typing event is a predicate on its bytes.
- `RoomProtocol` takes a history limit of zero or more; `History` takes any limit, and there a negative one is no limit.
- The database: rows are kept in the order they were committed, which in `RoomProtocol` is also the order of their creation times; the ids and times it fills in and its failures are parameters. A page is any result that the query's filter, order, offset and limit allow.
- Redis: a cache call takes effect at one instant with the time of the call, and a call that fails has no effect.
- Go's integers and durations: counts and times are unbounded, so a window of centuries does not overflow.
- Go's memory model: the two reads of the pool field outside the lock are single steps.
- The runtime: a panic ends its handler or, in a worker, the process; that `readPump` unwinds through its deferred calls in between is one step.
- Authentication, keys, user lookup, room lookup and adding a member row before a join; a request that fails there never reaches the modelled part.
- `Hub.Add`, which nothing calls in the server, and `Hub.Broadcast`, which nothing calls either.
- `Hub.Shutdown` is a step of `HubProtocol` but not a method of `HubService.Hub`: over objects it is a loop over rooms that `HubClasses.Room.Shutdown` covers one at a time.
- HubClasses.BroadcastPool.Worker: models a worker after its channel was closed; a worker that waits for more jobs is in `RoomProtocol` only.
- ReadLoop.ReadPump: says what one uninterrupted loop does; loops of several clients interleave in `RoomProtocol` only.
- HubService.Join: takes the result of the history query as given; that the query sees every row saved before it is in `RoomProtocol` only.
- RoomList.Screen.Receive: text fields, the viewport, typing indicators and every key that only moves the focus are left out; the sort is any sorted permutation, and aliasing between the old and the new model's list is not modelled.
- ConfigFile.SaveAPIKey: takes the file's content and the quoted key; file access and quoting are not part of the model. A line such as `api_key_old` counts as the key's line, as in the code.
- Views, styles, configuration loading, logging and command-line handling.
