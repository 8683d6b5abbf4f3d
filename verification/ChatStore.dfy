// The chat service over a message store. The database is the store's rows; what it decides is a parameter.
module ChatStore {
  import opened Basics
  import opened HubClasses
  import opened Messages

  /** What a query for history gives: a message with its sender's name. */
  datatype MessageInfo = MessageInfo(id: Uuid, author: string, content: Bytes, createdAt: Time)

  class MessageStore {
    var rows: seq<Row>
    var attempts: seq<Bytes>   // history: the contents that inserts were tried with

    constructor ()
      ensures rows == [] && attempts == []
    {
      rows, attempts := [], [];
    }

    method Create(content: Bytes, senderID: Uuid, roomID: Uuid, saved: Saved)
      modifies this
      ensures attempts == old(attempts) + [content]
      ensures rows == old(rows) + (if saved.Saved?
              then [Row(saved.id, content, senderID, roomID, saved.createdAt)] else [])
    {
      attempts := attempts + [content];
      if saved.Saved? {
        rows := rows + [Row(saved.id, content, senderID, roomID, saved.createdAt)];
      }
    }
  }

  function Info(row: Row, names: map<Uuid, string>): MessageInfo {
    MessageInfo(row.id, if row.senderID in names then names[row.senderID] else "", row.content, row.createdAt)
  }

  class ChatService {
    const messages: MessageStore

    constructor (messages: MessageStore)
      ensures this.messages == messages
    {
      this.messages := messages;
    }

    // A failed save gives the nil id and the zero time.
    method PersistMessage(content: Bytes, senderID: Uuid, roomID: Uuid, saved: Saved)
        returns (id: Uuid, createdAt: Time, failed: bool)
      modifies messages
      ensures messages.attempts == old(messages.attempts) + [content]
      ensures messages.rows == old(messages.rows) + (if failed
              then [] else [Row(id, content, senderID, roomID, createdAt)])
      ensures if failed then saved.SaveFailed? && id == NIL_ID && createdAt == ZERO_TIME
              else saved == Saved(id, createdAt)
    {
      messages.Create(content, senderID, roomID, saved);
      if saved.SaveFailed? {
        return NIL_ID, ZERO_TIME, true;
      }
      return saved.id, saved.createdAt, false;
    }

    // The mapping loop keeps the page's order and length, and pairs every row with its sender's name.
    method GetMessageHistory(page: Option<seq<Row>>, names: map<Uuid, string>) returns (infos: Option<seq<MessageInfo>>)
      ensures page.None? <==> infos.None?
      ensures page.Some? ==> |infos.value| == |page.value|
      ensures page.Some? ==> forall i :: 0 <= i < |page.value| ==> infos.value[i] == Info(page.value[i], names)
    {
      if page.None? {
        return None;
      }
      var messages := page.value;
      var result := new MessageInfo[|messages|](_ => MessageInfo(NIL_ID, "", [], ZERO_TIME));
      for i := 0 to |messages|
        invariant forall k :: 0 <= k < i ==> result[k] == Info(messages[k], names)
      {
        var m := messages[i];
        var author := if m.senderID in names then names[m.senderID] else "";
        result[i] := MessageInfo(m.id, author, m.content, m.createdAt);
      }
      return Some(result[..]);
    }
  }
}
