// What a client's read loop does with the frames it receives: bounce, announce typing, or persist and broadcast.
module FramePipeline {
  import opened Basics
  import opened HubClasses
  import opened Messages

  /** A received frame, with what the database will make of persisting it and the clock when it is handled. */
  datatype Input = Input(data: Bytes, saved: Saved, now: Time)

  predicate Overlong(i: Input) { |i.data| > MAX_MESSAGE_LENGTH }

  predicate IsTyping(codec: Codec, i: Input) { !Overlong(i) && codec.isTyping(i.data) }

  predicate IsChat(codec: Codec, i: Input) { !Overlong(i) && !codec.isTyping(i.data) }

  datatype Effect =
    | Attempt(data: Bytes, saved: Saved)              // the store was asked to persist
    | Sent(wire: WireMessage, bytes: Bytes)           // broadcast to the room
    | Bounced(bytes: Bytes)                           // offered to the sender's own queue

  function ErrorWire(now: Time): WireMessage { WireMessage(Error, None, "", TooLongNotice, now) }

  function TypingWire(username: string, now: Time): WireMessage { WireMessage(Typing, None, username, NoContent, now) }

  function SendIf(codec: Codec, wire: WireMessage): seq<Effect> {
    if codec.marshal(wire).Some? then [Sent(wire, codec.marshal(wire).value)] else []
  }

  /** What one turn of the read loop does, in order. */
  function Effects(codec: Codec, username: string, i: Input): seq<Effect> {
    if |i.data| > MAX_MESSAGE_LENGTH then
      var bytes := codec.marshal(ErrorWire(i.now));
      if bytes.Some? then [Bounced(bytes.value)] else []
    else if codec.isTyping(i.data) then SendIf(codec, TypingWire(username, i.now))
    else [Attempt(i.data, i.saved)] + SendIf(codec, ChatWire(username, i.data, i.saved, i.now))
  }

  function EffectsOf(codec: Codec, username: string): Input -> seq<Effect> { i => Effects(codec, username, i) }

  function Trace(codec: Codec, username: string, inputs: seq<Input>): seq<Effect> {
    Collect(inputs, EffectsOf(codec, username))
  }

  // ---- views of a trace ----

  function AttemptOf(e: Effect): seq<Bytes> { if e.Attempt? then [e.data] else [] }

  function SentOf(e: Effect): seq<Bytes> { if e.Sent? then [e.bytes] else [] }

  function ChatOf(e: Effect): seq<WireMessage> { if e.Sent? && e.wire.kind == Chat then [e.wire] else [] }

  function TypingOf(e: Effect): seq<WireMessage> { if e.Sent? && e.wire.kind == Typing then [e.wire] else [] }

  function BounceOf(e: Effect): seq<Bytes> { if e.Bounced? then [e.bytes] else [] }

  function RowOf(e: Effect, senderID: Uuid, roomID: Uuid): seq<Row> {
    if e.Attempt? && e.saved.Saved? then [Row(e.saved.id, e.data, senderID, roomID, e.saved.createdAt)] else []
  }

  function Attempts(trace: seq<Effect>): seq<Bytes> { Collect(trace, AttemptOf) }

  function SentBytes(trace: seq<Effect>): seq<Bytes> { Collect(trace, SentOf) }

  function Bounces(trace: seq<Effect>): seq<Bytes> { Collect(trace, BounceOf) }

  function RowsBy(senderID: Uuid, roomID: Uuid): Effect -> seq<Row> { (e: Effect) => RowOf(e, senderID, roomID) }

  function Rows(trace: seq<Effect>, senderID: Uuid, roomID: Uuid): seq<Row> { Collect(trace, RowsBy(senderID, roomID)) }

  // What a view sees of one turn.
  lemma ViewOfTurn<V>(codec: Codec, username: string, i: Input, view: Effect -> seq<V>)
    ensures Collect(Effects(codec, username, i), view) ==
      if Overlong(i) then
        (if codec.marshal(ErrorWire(i.now)).Some? then view(Bounced(codec.marshal(ErrorWire(i.now)).value)) else [])
      else
        var wire := if codec.isTyping(i.data)
            then TypingWire(username, i.now) else ChatWire(username, i.data, i.saved, i.now);
        var sent := if codec.marshal(wire).Some? then view(Sent(wire, codec.marshal(wire).value)) else [];
        if codec.isTyping(i.data) then sent else view(Attempt(i.data, i.saved)) + sent
  {
    var wire := ChatWire(username, i.data, i.saved, i.now);
    CollectOne(Bounced(if codec.marshal(ErrorWire(i.now)).Some?
        then codec.marshal(ErrorWire(i.now)).value else []), view);
    CollectOne(Sent(TypingWire(username, i.now), if codec.marshal(TypingWire(username, i.now)).Some?
        then codec.marshal(TypingWire(username, i.now)).value else []), view);
    CollectOne(Attempt(i.data, i.saved), view);
    CollectTwo(Attempt(i.data, i.saved), Sent(wire, if codec.marshal(wire).Some?
        then codec.marshal(wire).value else []), view);
  }

  // A view of the whole trace, from what it sees of each turn.
  lemma ViewOfTrace<V>(codec: Codec, username: string, inputs: seq<Input>, view: Effect -> seq<V>, h: Input -> seq<V>)
    requires forall i <- inputs :: Collect(Effects(codec, username, i), view) == h(i)
    ensures Collect(Trace(codec, username, inputs), view) == Collect(inputs, h)
  {
    CollectCompose(inputs, EffectsOf(codec, username), view, h);
  }

  // ---- the trace theorems ----

  function ChatFrames(codec: Codec): Input -> bool { i => IsChat(codec, i) }

  function NotTyping(codec: Codec): Input -> bool { i => !IsTyping(codec, i) }

  function DataOf(i: Input): Bytes { i.data }

  function ChatWireOf(username: string): Input -> WireMessage {
    (i: Input) => ChatWire(username, i.data, i.saved, i.now)
  }

  function Encodes(codec: Codec): WireMessage -> bool { w => codec.marshal(w).Some? }

  // The persistence attempts are, in order, exactly the frames within the limit that are not typing events.
  lemma AttemptsAreTheChatFrames(codec: Codec, username: string, inputs: seq<Input>)
    ensures Attempts(Trace(codec, username, inputs)) == Each(Where(inputs, ChatFrames(codec)), DataOf)
  {
    var h := i => if IsChat(codec, i) then [i.data] else [];
    forall i | i in inputs ensures Collect(Effects(codec, username, i), AttemptOf) == h(i) {
      ViewOfTurn(codec, username, i, AttemptOf);
    }
    ViewOfTrace(codec, username, inputs, AttemptOf, h);
    CollectWhere(inputs, ChatFrames(codec), Single(DataOf), h);
    CollectOnes(Where(inputs, ChatFrames(codec)), DataOf);
  }

  /** The messages that the chat frames become, those of failed saves under the nil id. */
  function ChatWires(codec: Codec, username: string, inputs: seq<Input>): seq<WireMessage> {
    Each(Where(inputs, ChatFrames(codec)), ChatWireOf(username))
  }

  // The chat broadcasts are, in order, the messages of the attempts, failed ones included, as far as they encode.
  lemma ChatsAreTheAttempts(codec: Codec, username: string, inputs: seq<Input>)
    ensures Collect(Trace(codec, username, inputs), ChatOf) == Where(ChatWires(codec, username, inputs), Encodes(codec))
  {
    var wire := ChatWireOf(username);
    var h := i => if IsChat(codec, i) && codec.marshal(wire(i)).Some? then [wire(i)] else [];
    var g := i => if codec.marshal(wire(i)).Some? then [wire(i)] else [];
    forall i | i in inputs ensures Collect(Effects(codec, username, i), ChatOf) == h(i) {
      ViewOfTurn(codec, username, i, ChatOf);
    }
    ViewOfTrace(codec, username, inputs, ChatOf, h);
    CollectWhere(inputs, ChatFrames(codec), g, h);
    var chats := Where(inputs, ChatFrames(codec));
    CollectOnes(chats, wire);
    forall i | i in chats ensures Collect(Single(wire)(i), Keep(Encodes(codec))) == g(i) {
      CollectOne(wire(i), Keep(Encodes(codec)));
    }
    CollectCompose(chats, Single(wire), Keep(Encodes(codec)), g);
  }

  // One for one: when every chat message encodes, the k-th chat broadcast carries the k-th attempted content.
  lemma ChatsMatchAttempts(codec: Codec, username: string, inputs: seq<Input>)
    requires forall w <- ChatWires(codec, username, inputs) :: codec.marshal(w).Some?
    ensures var trace := Trace(codec, username, inputs); var chats := Collect(trace, ChatOf);
            && |chats| == |Attempts(trace)|
            && forall k :: 0 <= k < |chats| ==>
                 chats[k].content == Said(Attempts(trace)[k]) && chats[k].author == username
  {
    AttemptsAreTheChatFrames(codec, username, inputs);
    ChatsAreTheAttempts(codec, username, inputs);
    WhereAll(ChatWires(codec, username, inputs), Encodes(codec));
  }

  // Dropping frames whose effects a view does not see leaves the view as it was.
  lemma Dropped<V>(codec: Codec, username: string, inputs: seq<Input>, keep: Input -> bool, view: Effect -> seq<V>)
    requires forall i <- inputs :: !keep(i) ==> Collect(Effects(codec, username, i), view) == []
    ensures Collect(Trace(codec, username, inputs), view) == Collect(Trace(codec, username, Where(inputs, keep)), view)
  {
    var seen := i => Collect(Effects(codec, username, i), view);
    ViewOfTrace(codec, username, inputs, view, seen);
    ViewOfTrace(codec, username, Where(inputs, keep), view, seen);
    CollectWhere(inputs, keep, seen, seen);
  }

  // A typing frame is never persisted: without the typing frames the attempts, the chats, the bounces and the stored
  // rows are the same, and no typing event is broadcast.
  lemma TypingIsNeverPersisted(codec: Codec, username: string, inputs: seq<Input>, senderID: Uuid, roomID: Uuid)
    ensures var trace := Trace(codec, username, inputs);
            var without := Trace(codec, username, Where(inputs, NotTyping(codec)));
            && Attempts(trace) == Attempts(without) && Collect(trace, ChatOf) == Collect(without, ChatOf)
            && Bounces(trace) == Bounces(without) && Rows(trace, senderID, roomID) == Rows(without, senderID, roomID)
            && Collect(without, TypingOf) == []
  {
    forall i | i in inputs && IsTyping(codec, i)
      ensures Collect(Effects(codec, username, i), AttemptOf) == []
              && Collect(Effects(codec, username, i), ChatOf) == []
      ensures Collect(Effects(codec, username, i), BounceOf) == []
      ensures Collect(Effects(codec, username, i), RowsBy(senderID, roomID)) == []
    {
      ViewOfTurn(codec, username, i, AttemptOf);
      ViewOfTurn(codec, username, i, ChatOf);
      ViewOfTurn(codec, username, i, BounceOf);
      ViewOfTurn(codec, username, i, RowsBy(senderID, roomID));
    }
    Dropped(codec, username, inputs, NotTyping(codec), AttemptOf);
    Dropped(codec, username, inputs, NotTyping(codec), ChatOf);
    Dropped(codec, username, inputs, NotTyping(codec), BounceOf);
    Dropped(codec, username, inputs, NotTyping(codec), RowsBy(senderID, roomID));
    WhereHolds(inputs, NotTyping(codec));
    TypingView(codec, username, Where(inputs, NotTyping(codec)));
    CollectNothing(Where(inputs, NotTyping(codec)), Announcement(codec, username));
  }

  // A typing frame is announced: the k-th typing broadcast is a typing event by the user, without id and content, at
  // the time of the k-th typing frame that encodes.
  lemma TypingIsAnnounced(codec: Codec, username: string, inputs: seq<Input>) returns (order: seq<nat>)
    ensures Ascending(order)
    ensures forall i: nat :: i in order <==>
              i < |inputs| && |inputs[i].data| <= 300 && codec.isTyping(inputs[i].data)
              && codec.marshal(WireMessage(Typing, None, username, NoContent, inputs[i].now)).Some?
    ensures var typing := Collect(Trace(codec, username, inputs), TypingOf);
            |typing| == |order| && forall k :: 0 <= k < |order| ==>
              order[k] < |inputs| && typing[k] == WireMessage(Typing, None, username, NoContent, inputs[order[k]].now)
  {
    TypingView(codec, username, inputs);
    order := CollectInOrder(inputs, Announces(codec, username), TypingWireOf(username), Announcement(codec, username));
    forall i: nat | i < |inputs|
      ensures Announces(codec, username)(inputs[i]) == (|inputs[i].data| <= 300 && codec.isTyping(inputs[i].data)
              && codec.marshal(WireMessage(Typing, None, username, NoContent, inputs[i].now)).Some?)
    {
      AnnouncementMeans(codec, username, inputs[i]);
    }
    forall k | 0 <= k < |order|
      ensures order[k] < |inputs|
              && TypingWireOf(username)(inputs[order[k]])
                 == WireMessage(Typing, None, username, NoContent, inputs[order[k]].now)
    {
      assert order[k] in order;
      AnnouncementMeans(codec, username, inputs[order[k]]);
    }
  }

  lemma AnnouncementMeans(codec: Codec, username: string, i: Input)
    ensures var wire := WireMessage(Typing, None, username, NoContent, i.now);
            && Announces(codec, username)(i)
               == (|i.data| <= 300 && codec.isTyping(i.data) && codec.marshal(wire).Some?)
            && TypingWireOf(username)(i) == wire
  {
    assert TypingWire(username, i.now) == WireMessage(Typing, None, username, NoContent, i.now);
  }

  lemma TypingView(codec: Codec, username: string, inputs: seq<Input>)
    ensures Collect(Trace(codec, username, inputs), TypingOf) == Collect(inputs, Announcement(codec, username))
  {
    forall i | i in inputs ensures Collect(Effects(codec, username, i), TypingOf) == Announcement(codec, username)(i) {
      TypingViewOfTurn(codec, username, i);
    }
    ViewOfTrace(codec, username, inputs, TypingOf, Announcement(codec, username));
  }

  lemma TypingViewOfTurn(codec: Codec, username: string, i: Input)
    ensures Collect(Effects(codec, username, i), TypingOf) == Announcement(codec, username)(i)
  {
    ViewOfTurn(codec, username, i, TypingOf);
    var typing, chat := TypingWire(username, i.now), ChatWire(username, i.data, i.saved, i.now);
    assert typing.kind == Typing && chat.kind == Chat;
    if Overlong(i) {
      assert Announcement(codec, username)(i) == [];
    } else if codec.isTyping(i.data) {
      var sent := codec.marshal(typing);
      if sent.Some? { assert TypingOf(Sent(typing, sent.value)) == [typing] == Announcement(codec, username)(i); }
    } else {
      var sent := codec.marshal(chat);
      assert TypingOf(Attempt(i.data, i.saved)) == [] == Announcement(codec, username)(i);
      if sent.Some? { assert TypingOf(Sent(chat, sent.value)) == []; }
    }
  }

  function Announces(codec: Codec, username: string): Input -> bool {
    (i: Input) => IsTyping(codec, i) && codec.marshal(TypingWire(username, i.now)).Some?
  }

  function TypingWireOf(username: string): Input -> WireMessage { (i: Input) => TypingWire(username, i.now) }

  function Announcement(codec: Codec, username: string): Input -> seq<WireMessage> {
    (i: Input) => if IsTyping(codec, i)
        && codec.marshal(TypingWire(username, i.now)).Some? then [TypingWire(username, i.now)] else []
  }

  function Within(i: Input): bool { !Overlong(i) }

  function NotBounced(e: Effect): bool { !e.Bounced? }

  function Complains(codec: Codec): Input -> bool {
    (i: Input) => Overlong(i) && codec.marshal(ErrorWire(i.now)).Some?
  }

  function ComplaintBytes(codec: Codec): Input -> Bytes {
    (i: Input) => var bytes := codec.marshal(ErrorWire(i.now)); if bytes.Some? then bytes.value else []
  }

  function Complaint(codec: Codec): Input -> seq<Bytes> {
    (i: Input) => if Overlong(i)
        && codec.marshal(ErrorWire(i.now)).Some? then [codec.marshal(ErrorWire(i.now)).value] else []
  }

  // An overlong frame yields only an error offered to its sender: without the overlong frames the rest of the trace is
  // the same, and the k-th bounce is the encoding of the fixed error notice at the time of the k-th frame over 300
  // bytes whose notice encodes.
  lemma OverlongOnlyBounces(codec: Codec, username: string, inputs: seq<Input>) returns (order: seq<nat>)
    ensures Where(Trace(codec, username, inputs), NotBounced) == Trace(codec, username, Where(inputs, Within))
    ensures Ascending(order)
    ensures forall i: nat :: i in order <==>
              i < |inputs| && |inputs[i].data| > 300
              && codec.marshal(WireMessage(Error, None, "", TooLongNotice, inputs[i].now)).Some?
    ensures var bounces := Bounces(Trace(codec, username, inputs));
            |bounces| == |order| && forall k :: 0 <= k < |order| ==>
              order[k] < |inputs|
              && codec.marshal(WireMessage(Error, None, "", TooLongNotice, inputs[order[k]].now)) == Some(bounces[k])
  {
    OverlongViews(codec, username, inputs);
    order := ComplaintsInOrder(codec, inputs);
  }

  lemma ComplaintsInOrder(codec: Codec, inputs: seq<Input>) returns (order: seq<nat>)
    ensures Ascending(order)
    ensures forall i: nat :: i in order <==>
              i < |inputs| && |inputs[i].data| > 300
              && codec.marshal(WireMessage(Error, None, "", TooLongNotice, inputs[i].now)).Some?
    ensures var bounces := Collect(inputs, Complaint(codec));
            |bounces| == |order| && forall k :: 0 <= k < |order| ==>
              order[k] < |inputs|
              && codec.marshal(WireMessage(Error, None, "", TooLongNotice, inputs[order[k]].now)) == Some(bounces[k])
  {
    order := CollectInOrder(inputs, Complains(codec), ComplaintBytes(codec), Complaint(codec));
    forall i: nat | i < |inputs|
      ensures Complains(codec)(inputs[i]) == (|inputs[i].data| > 300
              && codec.marshal(WireMessage(Error, None, "", TooLongNotice, inputs[i].now)).Some?)
    {
      ComplaintMeans(codec, inputs[i]);
    }
    forall k | 0 <= k < |order|
      ensures order[k] < |inputs|
              && codec.marshal(WireMessage(Error, None, "", TooLongNotice, inputs[order[k]].now))
                 == Some(ComplaintBytes(codec)(inputs[order[k]]))
    {
      assert order[k] in order;
      ComplaintMeans(codec, inputs[order[k]]);
    }
  }

  lemma ComplaintMeans(codec: Codec, i: Input)
    ensures var bytes := codec.marshal(WireMessage(Error, None, "", TooLongNotice, i.now));
            && Complains(codec)(i) == (|i.data| > 300 && bytes.Some?)
            && (bytes.Some? ==> ComplaintBytes(codec)(i) == bytes.value)
  {
    assert ErrorWire(i.now) == WireMessage(Error, None, "", TooLongNotice, i.now);
  }

  lemma OverlongViews(codec: Codec, username: string, inputs: seq<Input>)
    ensures Where(Trace(codec, username, inputs), NotBounced) == Trace(codec, username, Where(inputs, Within))
    ensures Bounces(Trace(codec, username, inputs)) == Collect(inputs, Complaint(codec))
  {
    var h := i => if Overlong(i) then [] else Effects(codec, username, i);
    forall i | i in inputs
      ensures Collect(Effects(codec, username, i), Keep(NotBounced)) == h(i)
      ensures Collect(Effects(codec, username, i), BounceOf) == Complaint(codec)(i)
    {
      if Overlong(i) {
        CollectNothing(Effects(codec, username, i), Keep(NotBounced));
      } else {
        WhereAll(Effects(codec, username, i), NotBounced);
      }
      ViewOfTurn(codec, username, i, BounceOf);
    }
    ViewOfTrace(codec, username, inputs, Keep(NotBounced), h);
    ViewOfTrace(codec, username, inputs, BounceOf, Complaint(codec));
    CollectWhere(inputs, Within, EffectsOf(codec, username), h);
  }

  function SavedChats(codec: Codec): Input -> bool { (i: Input) => IsChat(codec, i) && i.saved.Saved? }

  function ReplayAs(author: string): Row -> WireMessage { (row: Row) => HistoryWire(row, author) }

  function AsRow(senderID: Uuid, roomID: Uuid): Input -> Row {
    (i: Input) => match i.saved
      case Saved(id, createdAt) => Row(id, i.data, senderID, roomID, createdAt)
      case SaveFailed => Row(NIL_ID, i.data, senderID, roomID, ZERO_TIME)
  }

  // The rows stored are those of the chat frames whose save succeeded, in order.
  lemma RowsAreTheSavedChats(codec: Codec, username: string, inputs: seq<Input>, senderID: Uuid, roomID: Uuid)
    ensures Rows(Trace(codec, username, inputs), senderID, roomID)
            == Each(Where(inputs, SavedChats(codec)), AsRow(senderID, roomID))
  {
    var stored := (i: Input) => if IsChat(codec, i) then RowOf(Attempt(i.data, i.saved), senderID, roomID) else [];
    forall i | i in inputs ensures Collect(Effects(codec, username, i), RowsBy(senderID, roomID)) == stored(i) {
      ViewOfTurn(codec, username, i, RowsBy(senderID, roomID));
    }
    ViewOfTrace(codec, username, inputs, RowsBy(senderID, roomID), stored);
    CollectWhere(inputs, SavedChats(codec), Single(AsRow(senderID, roomID)), stored);
    CollectOnes(Where(inputs, SavedChats(codec)), AsRow(senderID, roomID));
  }

  /** The database filled in this frame's creation time, or the clock had none either. */
  predicate TimeFilledIn(i: Input) { i.saved.Saved? ==> i.saved.createdAt != ZERO_TIME || i.now == ZERO_TIME }

  // What a joiner is later replayed of this client's messages is, message for message, what was broadcast live, if and
  // only if the database filled in the creation time of each.
  lemma ReplayRepeatsLive(codec: Codec, username: string, inputs: seq<Input>, senderID: Uuid, roomID: Uuid)
    ensures Each(Rows(Trace(codec, username, inputs), senderID, roomID), ReplayAs(username))
         == Each(Where(inputs, SavedChats(codec)), ChatWireOf(username))
       <==> forall i <- Where(inputs, SavedChats(codec)) :: TimeFilledIn(i)
  {
    var saved := Where(inputs, SavedChats(codec));
    var rows := Rows(Trace(codec, username, inputs), senderID, roomID);
    RowsAreTheSavedChats(codec, username, inputs, senderID, roomID);
    WhereHolds(inputs, SavedChats(codec));
    var replayed, live := Each(rows, ReplayAs(username)), Each(saved, ChatWireOf(username));
    forall k | 0 <= k < |saved| ensures replayed[k] == live[k] <==> TimeFilledIn(saved[k]) {
      var i := saved[k];
      assert i in saved && i.saved.Saved?;
      LiveAndReplayedAgree(username, i.data, i.saved, senderID, roomID, i.now);
    }
    if i :| i in saved && !TimeFilledIn(i) {
      var k :| 0 <= k < |saved| && saved[k] == i;
      assert replayed[k] != live[k];
    }
  }

  // ---- the trace frame by frame ----

  // What is broadcast, in full: the k-th broadcast is the encoding of the k-th frame within 300 bytes whose message
  // encodes. A typing frame's message has the user's name and the time; a chat frame's has the id and the time the
  // database filled in, the nil id and the clock's time where it did not, the user's name, and the frame.
  lemma BroadcastsInFull(codec: Codec, username: string, inputs: seq<Input>, wire: Input -> WireMessage)
      returns (order: seq<nat>)
    requires forall i <- inputs :: wire(i)
               == if codec.isTyping(i.data) then WireMessage(Typing, None, username, NoContent, i.now)
                  else WireMessage(Chat, Some(if i.saved.Saved? then i.saved.id else 0), username, Said(i.data),
                    if i.saved.Saved? && i.saved.createdAt != 0 then i.saved.createdAt else i.now)
    ensures Ascending(order)
    ensures forall i: nat :: i in order <==>
              i < |inputs| && |inputs[i].data| <= 300 && codec.marshal(wire(inputs[i])).Some?
    ensures var sent := SentBytes(Trace(codec, username, inputs));
            |sent| == |order| && forall k :: 0 <= k < |order| ==>
              order[k] < |inputs| && codec.marshal(wire(inputs[order[k]])) == Some(sent[k])
  {
    var p := (i: Input) => !Overlong(i) && codec.marshal(wire(i)).Some?;
    var f := (i: Input) => if codec.marshal(wire(i)).Some? then codec.marshal(wire(i)).value else [];
    var h := (i: Input) => if p(i) then [f(i)] else [];
    forall i | i in inputs ensures Collect(Effects(codec, username, i), SentOf) == h(i) {
      ViewOfTurn(codec, username, i, SentOf);
    }
    ViewOfTrace(codec, username, inputs, SentOf, h);
    order := CollectInOrder(inputs, p, f, h);
    forall k | 0 <= k < |order| ensures order[k] < |inputs| && p(inputs[order[k]]) { assert order[k] in order; }
  }

  // What is stored, in full: one attempt for each frame within 300 bytes that is no typing event, and one row for each
  // of these whose save succeeded, with what the database filled in and under the sender and the room.
  lemma StoredInFull(codec: Codec, username: string, inputs: seq<Input>, senderID: Uuid, roomID: Uuid)
      returns (tried: seq<nat>, saved: seq<nat>)
    ensures Ascending(tried) && Ascending(saved)
    ensures forall i: nat :: i in tried <==>
              i < |inputs| && |inputs[i].data| <= 300 && !codec.isTyping(inputs[i].data)
    ensures forall i: nat :: i in saved <==> i in tried && inputs[i].saved.Saved?
    ensures var attempts := Attempts(Trace(codec, username, inputs));
            |attempts| == |tried| && forall k :: 0 <= k < |tried| ==>
              tried[k] < |inputs| && attempts[k] == inputs[tried[k]].data
    ensures var rows := Rows(Trace(codec, username, inputs), senderID, roomID);
            |rows| == |saved| && forall k :: 0 <= k < |saved| ==>
              saved[k] < |inputs| && inputs[saved[k]].saved.Saved?
              && rows[k] == Row(inputs[saved[k]].saved.id, inputs[saved[k]].data, senderID, roomID,
                   inputs[saved[k]].saved.createdAt)
  {
    tried := AttemptsInOrder(codec, username, inputs);
    saved := RowsInOrder(codec, username, inputs, senderID, roomID);
  }

  lemma AttemptsInOrder(codec: Codec, username: string, inputs: seq<Input>) returns (tried: seq<nat>)
    ensures Ascending(tried)
    ensures forall i: nat :: i in tried <==>
              i < |inputs| && |inputs[i].data| <= 300 && !codec.isTyping(inputs[i].data)
    ensures var attempts := Attempts(Trace(codec, username, inputs));
            |attempts| == |tried| && forall k :: 0 <= k < |tried| ==>
              tried[k] < |inputs| && attempts[k] == inputs[tried[k]].data
  {
    AttemptsAreTheChatFrames(codec, username, inputs);
    tried := WhereInOrder(inputs, ChatFrames(codec), DataOf);
    forall i: nat | i < |inputs|
      ensures ChatFrames(codec)(inputs[i]) == (|inputs[i].data| <= 300 && !codec.isTyping(inputs[i].data))
    {}
  }

  lemma RowsInOrder(codec: Codec, username: string, inputs: seq<Input>, senderID: Uuid, roomID: Uuid)
      returns (saved: seq<nat>)
    ensures Ascending(saved)
    ensures forall i: nat :: i in saved <==>
              i < |inputs| && |inputs[i].data| <= 300 && !codec.isTyping(inputs[i].data) && inputs[i].saved.Saved?
    ensures var rows := Rows(Trace(codec, username, inputs), senderID, roomID);
            |rows| == |saved| && forall k :: 0 <= k < |saved| ==>
              saved[k] < |inputs| && inputs[saved[k]].saved.Saved?
              && rows[k] == Row(inputs[saved[k]].saved.id, inputs[saved[k]].data, senderID, roomID,
                   inputs[saved[k]].saved.createdAt)
  {
    RowsAreTheSavedChats(codec, username, inputs, senderID, roomID);
    saved := WhereInOrder(inputs, SavedChats(codec), AsRow(senderID, roomID));
    forall i: nat | i < |inputs|
      ensures SavedChats(codec)(inputs[i])
              == (|inputs[i].data| <= 300 && !codec.isTyping(inputs[i].data) && inputs[i].saved.Saved?)
    {}
    forall k | 0 <= k < |saved| ensures saved[k] < |inputs| && SavedChats(codec)(inputs[saved[k]]) {
      assert saved[k] in saved;
    }
  }
}
