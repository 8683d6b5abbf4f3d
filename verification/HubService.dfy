// The hub's room table, and a connection's way into a room, taken without interruption. HubProtocol has what happens
// when several connections do this at once.
module HubService {
  import opened Basics
  import opened Sharding
  import opened HubClasses
  import opened Messages
  import opened ChatStore
  import opened History

  class Hub {
    var rooms: map<Uuid, Room>

    ghost predicate Valid()
      reads this, rooms.Values
    {
      forall id <- rooms :: rooms[id].id == id
    }

    constructor ()
      ensures Valid() && rooms == map[]
    {
      rooms := map[];
    }

    // A room that was there under the same ID is replaced.
    method CreateRoom(roomUUID: Uuid) returns (room: Room)
      requires Valid()
      modifies this
      ensures Valid() && fresh(room) && rooms == old(rooms)[roomUUID := room]
      ensures room.Valid() && room.id == roomUUID && room.clients == {} && room.broadcastPool == null
    {
      room := new Room(roomUUID);
      rooms := rooms[roomUUID := room];
    }

    method GetRoom(roomUUID: Uuid) returns (room: Room?)
      ensures if roomUUID in rooms then room == rooms[roomUUID] else room == null
    {
      if roomUUID !in rooms {
        return null;
      }
      return rooms[roomUUID];
    }

    // The room leaves the table first, and then its pool delivers what is queued. An ID that is not there is ignored.
    method Remove(roomID: Uuid, ghost cs: set<Client>)
      requires Valid() && (forall c <- cs :: !c.closed)
      requires roomID in rooms ==>
                 var pool := rooms[roomID].broadcastPool;
                 rooms[roomID].Valid() && (pool != null ==>
                     !pool.closed && forall k :: 0 <= k < WORKER_COUNT ==> ClientsOf(pool.workers[k]) <= cs)
      modifies this, cs`send
      modifies if roomID in rooms
               && rooms[roomID].broadcastPool != null
                    then {rooms[roomID].broadcastPool, rooms[roomID].broadcastPool.workers} else {}
      ensures Valid() && rooms == old(rooms) - {roomID}
      ensures roomID in old(rooms) && old(rooms)[roomID].broadcastPool != null ==>
                var pool := old(rooms[roomID].broadcastPool);
                && pool.closed && pool.workerCount == WORKER_COUNT == pool.workers.Length
                && (forall k :: 0 <= k < WORKER_COUNT ==> pool.workers[k] == [])
                && (forall c <- cs :: c.send
                     == OfferAll(old(c.send), MessagesFor(AllJobs(old(pool.workers[..])), c), SEND_BUFFER))
                && forall c <- cs :: |old(c.send)| <= 256 ==>
                     Delivered(old(pool.workers[..]), c, old(c.send), c.send)
      ensures roomID !in old(rooms) || old(rooms[roomID].broadcastPool) == null ==>
              forall c <- cs :: c.send == old(c.send)
    {
      var room: Room? := if roomID in rooms then rooms[roomID] else null;
      rooms := rooms - {roomID};
      if room != null {
        room.Shutdown(cs);
      }
    }
  }

  // A connection that nothing else interrupts: it gets the room of its ID, making it if there is none, enters, and is
  // replayed the history.
  method Join(hub: Hub, codec: Codec, svc: ChatService, roomUUID: Uuid, userID: Uuid, username: string,
              page: Option<seq<Row>>, names: map<Uuid, string>)
    returns (client: Client, room: Room)
    requires hub.Valid() && (roomUUID in hub.rooms ==> hub.rooms[roomUUID].Valid())
    modifies hub, if roomUUID in hub.rooms then {hub.rooms[roomUUID]} else {}
    ensures hub.Valid() && room.Valid() && fresh(client) && room.id == client.roomID == roomUUID
    ensures roomUUID in old(hub.rooms) ==>
              room == old(hub.rooms)[roomUUID] && hub.rooms == old(hub.rooms)
                  && room.clients == old(room.clients) + {client}
    ensures roomUUID !in old(hub.rooms) ==>
              fresh(room) && hub.rooms == old(hub.rooms)[roomUUID := room] && room.clients == {client}
    ensures client.send == if page.None?
            then [] else OfferAll([], ReplayBytes(codec, Each(page.value, WithNames(names))), SEND_BUFFER)
  {
    var found := hub.GetRoom(roomUUID);
    if found == null {
      room := hub.CreateRoom(roomUUID);
    } else {
      room := found;
    }
    client := new Client(userID, roomUUID, username);
    room.Add(client);
    SendHistory(codec, client, svc, page, names);
  }
}
