// What a joiner is replayed: a page of the room's stored messages, newest first, pushed into its queue oldest first.
module History {
  import opened Basics
  import opened Sharding
  import opened HubClasses
  import opened Messages
  import opened ChatStore

  // ---- the query ----

  function ByRoom(roomID: Uuid): Row -> bool { (row: Row) => row.roomID == roomID }

  function InRoom(rows: seq<Row>, roomID: Uuid): seq<Row> { Where(rows, ByRoom(roomID)) }

  predicate NewestFirst(rows: seq<Row>) {
    forall i, j :: 0 <= i < j < |rows| ==> rows[i].createdAt >= rows[j].createdAt
  }

  predicate OldestFirst(rows: seq<Row>) {
    forall i, j :: 0 <= i < j < |rows| ==> rows[i].createdAt <= rows[j].createdAt
  }

  /** OFFSET and LIMIT; a negative limit is no limit, a negative offset none. */
  function Slice(rows: seq<Row>, limit: int, offset: int): seq<Row> {
    var rest := rows[Min(Max(offset, 0), |rows|)..];
    if limit < 0 then rest else rest[..Min(limit, |rest|)]
  }

  /** A result the query may give: rows created at the same time come in any order. */
  ghost predicate IsPage(rows: seq<Row>, roomID: Uuid, limit: int, offset: int, page: seq<Row>) {
    exists sorted: seq<Row> :: multiset(sorted) == multiset(InRoom(rows, roomID)) && NewestFirst(sorted)
        && page == Slice(sorted, limit, offset)
  }

  lemma MultisetOfParts<T>(whole: seq<T>, head: seq<T>, tail: seq<T>)
    requires whole == head + tail
    ensures multiset(whole) == multiset(head) + multiset(tail) && multiset(head) <= multiset(whole)
    ensures multiset(whole) - multiset(head) == multiset(tail)
  {}

  /** The position at which a row enters a sorted list. */
  function Position(row: Row, sorted: seq<Row>): (k: nat)
    requires NewestFirst(sorted)
    ensures k <= |sorted|
    ensures forall i :: 0 <= i < |sorted| ==>
            if i < k then sorted[i].createdAt > row.createdAt else sorted[i].createdAt <= row.createdAt
  {
    if sorted == [] || sorted[0].createdAt <= row.createdAt then 0 else 1 + Position(row, sorted[1..])
  }

  function Insert(row: Row, sorted: seq<Row>): (r: seq<Row>)
    requires NewestFirst(sorted)
    ensures NewestFirst(r)
  {
    var k := Position(row, sorted);
    sorted[..k] + [row] + sorted[k..]
  }

  lemma InsertAdds(row: Row, sorted: seq<Row>)
    requires NewestFirst(sorted)
    ensures multiset(Insert(row, sorted)) == multiset(sorted) + multiset{row}
  {
    var k := Position(row, sorted);
    MultisetOfParts(Insert(row, sorted), sorted[..k] + [row], sorted[k..]);
    MultisetOfParts(sorted, sorted[..k], sorted[k..]);
  }

  function Sorted(rows: seq<Row>): (r: seq<Row>)
    ensures NewestFirst(r)
  {
    if rows == [] then [] else Insert(rows[0], Sorted(rows[1..]))
  }

  lemma {:induction false} SortedPermutes(rows: seq<Row>)
    ensures multiset(Sorted(rows)) == multiset(rows)
    decreases |rows|
  {
    if rows != [] {
      SortedPermutes(rows[1..]);
      InsertAdds(rows[0], Sorted(rows[1..]));
      MultisetOfParts(rows, [rows[0]], rows[1..]);
    }
  }

  // The query always has a result.
  lemma QueryHasAResult(rows: seq<Row>, roomID: Uuid, limit: int, offset: int) returns (page: seq<Row>)
    ensures IsPage(rows, roomID, limit, offset, page)
  {
    SortedPermutes(InRoom(rows, roomID));
    page := Slice(Sorted(InRoom(rows, roomID)), limit, offset);
  }

  lemma InRoomNext(rows: seq<Row>, roomID: Uuid)
    requires rows != []
    ensures var n := |rows| - 1;
            InRoom(rows, roomID) == InRoom(rows[..n], roomID) + (if rows[n].roomID == roomID then [rows[n]] else [])
  {
    var last := rows[|rows| - 1];
    assert Keep(ByRoom(roomID))(last) == if last.roomID == roomID then [last] else [];
  }

  lemma {:induction false} InRoomCounts(rows: seq<Row>, roomID: Uuid, r: Row)
    ensures multiset(InRoom(rows, roomID))[r] == if r.roomID == roomID then multiset(rows)[r] else 0
    decreases |rows|
  {
    if rows != [] {
      var n := |rows| - 1;
      InRoomCounts(rows[..n], roomID, r);
      assert rows == rows[..n] + [rows[n]];
      InRoomNext(rows, roomID);
    }
  }

  lemma {:induction false} InRoomSize(rows: seq<Row>, roomID: Uuid)
    ensures |InRoom(rows, roomID)| == |set i: nat | i < |rows| && rows[i].roomID == roomID|
    decreases |rows|
  {
    if rows == [] {
      assert (set i: nat | i < |rows| && rows[i].roomID == roomID) == {};
    } else {
      InRoomSize(rows[..|rows| - 1], roomID);
      InRoomNext(rows, roomID);
      OneMorePlace(rows, roomID);
    }
  }

  lemma OneMorePlace(rows: seq<Row>, roomID: Uuid)
    requires rows != []
    ensures var n := |rows| - 1;
            |set i: nat | i < |rows| && rows[i].roomID == roomID|
            == |set i: nat | i < n && rows[..n][i].roomID == roomID| + if rows[n].roomID == roomID then 1 else 0
  {
    var n := |rows| - 1;
    var here := set i: nat | i < |rows| && rows[i].roomID == roomID;
    var before := set i: nat | i < n && rows[..n][i].roomID == roomID;
    assert here == if rows[n].roomID == roomID then before + {n} else before;
  }

  /** The rows of `rest` are none newer than any of `page`. */
  predicate NoneNewer(rest: multiset<Row>, page: seq<Row>) {
    forall r, k :: r in rest && 0 <= k < |page| ==> r.createdAt <= page[k].createdAt
  }

  // A first page holds the newest messages of the room, as many as the limit and the room allow, newest first.
  lemma PageIsTheNewest(rows: seq<Row>, roomID: Uuid, limit: int, page: seq<Row>)
    requires IsPage(rows, roomID, limit, 0, page)
    ensures |page| == if limit < 0 then |InRoom(rows, roomID)| else Min(limit, |InRoom(rows, roomID)|)
    ensures NewestFirst(page) && multiset(page) <= multiset(InRoom(rows, roomID))
    ensures NoneNewer(multiset(InRoom(rows, roomID)) - multiset(page), page)
  {
    PageIsAPrefix(rows, roomID, limit, page);
  }

  // The same in terms of the rows: a first page holds rows of the room only, no row more often than it is stored, as
  // many as the limit and the room allow, newest first, and no row of the room that it lacks is newer than one it has.
  lemma PageInFull(rows: seq<Row>, roomID: Uuid, limit: int, page: seq<Row>)
    requires IsPage(rows, roomID, limit, 0, page)
    ensures var here := |set i: nat | i < |rows| && rows[i].roomID == roomID|;
            |page| == if limit < 0 || here <= limit then here else limit
    ensures forall k :: 0 <= k < |page| ==> page[k].roomID == roomID && page[k] in rows
    ensures forall j, k :: 0 <= j < k < |page| ==> page[j].createdAt >= page[k].createdAt
    ensures forall r: Row, k :: r.roomID == roomID && 0 <= k < |page| && multiset(page)[r] < multiset(rows)[r] ==>
              r.createdAt <= page[k].createdAt
    ensures multiset(page) <= multiset(rows)
  {
    PageIsTheNewest(rows, roomID, limit, page);
    InRoomSize(rows, roomID);
    forall r: Row
      ensures multiset(InRoom(rows, roomID))[r] == if r.roomID == roomID then multiset(rows)[r] else 0
    {
      InRoomCounts(rows, roomID, r);
    }
    PartOfRoom(rows, roomID, multiset(InRoom(rows, roomID)), page);
  }

  lemma PartOfRoom(rows: seq<Row>, roomID: Uuid, here: multiset<Row>, page: seq<Row>)
    requires forall r: Row :: here[r] == if r.roomID == roomID then multiset(rows)[r] else 0
    requires multiset(page) <= here && NoneNewer(here - multiset(page), page)
    ensures forall k :: 0 <= k < |page| ==> page[k].roomID == roomID && page[k] in rows
    ensures forall r: Row, k :: r.roomID == roomID && 0 <= k < |page| && multiset(page)[r] < multiset(rows)[r] ==>
              r.createdAt <= page[k].createdAt
    ensures multiset(page) <= multiset(rows)
  {
    forall k | 0 <= k < |page| ensures page[k].roomID == roomID && page[k] in rows {
      assert page[k] in multiset(page);
      assert here[page[k]] > 0 && page[k] in multiset(rows);
    }
    forall r: Row, k | r.roomID == roomID && 0 <= k < |page| && multiset(page)[r] < multiset(rows)[r]
      ensures r.createdAt <= page[k].createdAt
    {
      assert r in here - multiset(page);
    }
  }

  // A page at an offset is what follows the first `offset` rows.
  lemma PageAfterPage(rows: seq<Row>, roomID: Uuid, limit: nat, offset: nat, page: seq<Row>) returns (first: seq<Row>)
    requires IsPage(rows, roomID, limit, offset, page)
    ensures IsPage(rows, roomID, offset, 0, first) && IsPage(rows, roomID, offset + limit, 0, first + page)
  {
    var sorted :| multiset(sorted) == multiset(InRoom(rows, roomID)) && NewestFirst(sorted)
        && page == Slice(sorted, limit, offset);
    first := Slice(sorted, offset, 0);
    SlicesJoin(sorted, limit, offset);
  }

  lemma SlicesJoin(sorted: seq<Row>, limit: nat, offset: nat)
    ensures Slice(sorted, offset, 0) + Slice(sorted, limit, offset) == Slice(sorted, offset + limit, 0)
  {}

  lemma PageIsAPrefix(rows: seq<Row>, roomID: Uuid, limit: int, page: seq<Row>)
    requires IsPage(rows, roomID, limit, 0, page)
    ensures |page| == if limit < 0 then |InRoom(rows, roomID)| else Min(limit, |InRoom(rows, roomID)|)
    ensures NewestFirst(page) && multiset(page) <= multiset(InRoom(rows, roomID))
    ensures NoneNewer(multiset(InRoom(rows, roomID)) - multiset(page), page)
  {
    var sorted :| multiset(sorted) == multiset(InRoom(rows, roomID)) && NewestFirst(sorted)
        && page == Slice(sorted, limit, 0);
    assert |sorted| == |multiset(sorted)| && |InRoom(rows, roomID)| == |multiset(InRoom(rows, roomID))|;
    FirstPage(sorted, limit);
    PrefixIsNewest(sorted, |page|);
  }

  lemma FirstPage(sorted: seq<Row>, limit: int)
    ensures Slice(sorted, limit, 0) == sorted[..if limit < 0 then |sorted| else Min(limit, |sorted|)]
  {}

  lemma PrefixIsNewest(sorted: seq<Row>, n: nat)
    requires NewestFirst(sorted) && n <= |sorted|
    ensures NewestFirst(sorted[..n]) && multiset(sorted[..n]) <= multiset(sorted)
    ensures NoneNewer(multiset(sorted) - multiset(sorted[..n]), sorted[..n])
  {
    assert sorted == sorted[..n] + sorted[n..];
    MultisetOfParts(sorted, sorted[..n], sorted[n..]);
    RestIsOlder(sorted, n);
  }

  lemma RestIsOlder(sorted: seq<Row>, n: nat)
    requires NewestFirst(sorted) && n <= |sorted|
    ensures NoneNewer(multiset(sorted[n..]), sorted[..n])
  {
    forall r: Row, k | r in multiset(sorted[n..]) && 0 <= k < n
      ensures r.createdAt <= sorted[k].createdAt
    {
      var j :| 0 <= j < |sorted[n..]| && sorted[n..][j] == r;
      assert sorted[n + j] == r;
    }
  }

  // ---- the replay ----

  function Reversed<T>(xs: seq<T>): (r: seq<T>)
    ensures |r| == |xs| && forall i :: 0 <= i < |xs| ==> r[i] == xs[|xs| - 1 - i]
  {
    seq(|xs|, i requires 0 <= i < |xs| => xs[|xs| - 1 - i])
  }

  function InfoWire(m: MessageInfo): WireMessage {
    WireMessage(Chat, Some(m.id), m.author, Said(m.content), m.createdAt)
  }

  function Encoded(codec: Codec, m: MessageInfo): seq<Bytes> {
    if codec.marshal(InfoWire(m)).Some? then [codec.marshal(InfoWire(m)).value] else []
  }

  function WithNames(names: map<Uuid, string>): Row -> MessageInfo { (row: Row) => Info(row, names) }

  /** What the replay of a page sends: its messages from the last to the first, without those that do not encode. */
  function ReplayBytes(codec: Codec, infos: seq<MessageInfo>): seq<Bytes> {
    if infos == [] then [] else ReplayBytes(codec, infos[1..]) + Encoded(codec, infos[0])
  }

  /** The queue once the loop has come down to index i. */
  function Replayed(codec: Codec, before: seq<Bytes>, messages: seq<MessageInfo>, i: nat): seq<Bytes>
    requires i <= |messages|
    decreases |messages| - i
  {
    if i == |messages| then before
    else
      var sent, bytes := Replayed(codec, before, messages, i + 1), codec.marshal(InfoWire(messages[i]));
      if bytes.Some? then Offer(sent, bytes.value, SEND_BUFFER) else sent
  }

  lemma {:induction false} ReplayedIsOffered(codec: Codec, before: seq<Bytes>, messages: seq<MessageInfo>, i: nat)
    requires i <= |messages|
    ensures Replayed(codec, before, messages, i) == OfferAll(before, ReplayBytes(codec, messages[i..]), SEND_BUFFER)
    decreases |messages| - i
  {
    if i == |messages| {
      assert messages[i..] == [];
    } else {
      ReplayedIsOffered(codec, before, messages, i + 1);
      assert messages[i..][1..] == messages[i + 1..] && messages[i..][0] == messages[i];
      OfferAllAppend(before, ReplayBytes(codec, messages[i + 1..]), Encoded(codec, messages[i]), SEND_BUFFER);
    }
  }

  // The countdown loop offers the page to the client's queue, oldest message first; a failed query sends nothing.
  method SendHistory(codec: Codec, client: Client, svc: ChatService, page: Option<seq<Row>>, names: map<Uuid, string>)
    requires !client.closed
    modifies client`send
    ensures page.None? ==> client.send == old(client.send)
    ensures page.Some? ==>
              client.send == OfferAll(old(client.send), ReplayBytes(codec, Each(page.value, WithNames(names))),
                  SEND_BUFFER)
  {
    var infos := svc.GetMessageHistory(page, names);
    if infos.None? {
      return;
    }
    assert infos.value == Each(page.value, WithNames(names));
    ReplayAll(codec, client, infos.value);
  }

  method ReplayAll(codec: Codec, client: Client, messages: seq<MessageInfo>)
    requires !client.closed
    modifies client`send
    ensures client.send == OfferAll(old(client.send), ReplayBytes(codec, messages), SEND_BUFFER)
  {
    var i := |messages| - 1;
    while i >= 0
      invariant -1 <= i < |messages|
      invariant client.send == Replayed(codec, old(client.send), messages, i + 1)
    {
      var wireBytes := codec.marshal(InfoWire(messages[i]));
      if wireBytes.Some? {
        client.SendRaw(wireBytes.value);
      }
      i := i - 1;
    }
    ReplayedIsOffered(codec, old(client.send), messages, 0);
    assert messages[0..] == messages;
  }

  function BytesOf(codec: Codec, names: map<Uuid, string>): Row -> Bytes {
    (row: Row) => var bytes := codec.marshal(InfoWire(Info(row, names))); if bytes.Some? then bytes.value else []
  }

  ghost predicate AllEncode(codec: Codec, names: map<Uuid, string>, rows: seq<Row>) {
    forall row <- rows :: codec.marshal(InfoWire(Info(row, names))).Some?
  }

  lemma {:induction false} ReplayOfEncodable(codec: Codec, names: map<Uuid, string>, page: seq<Row>)
    requires AllEncode(codec, names, page)
    ensures ReplayBytes(codec, Each(page, WithNames(names))) == Each(Reversed(page), BytesOf(codec, names))
    decreases |page|
  {
    if page != [] {
      assert page[0] in page && forall row <- page[1..] :: row in page;
      ReplayOfEncodable(codec, names, page[1..]);
      ReplayEndsWithFirst(codec, names, page, InfoWire(Info(page[0], names)));
      EachReversed(page, BytesOf(codec, names));
    }
  }

  lemma EachReversed<T, U>(xs: seq<T>, f: T -> U)
    requires xs != []
    ensures Each(Reversed(xs), f) == Each(Reversed(xs[1..]), f) + [f(xs[0])]
  {
    assert Reversed(xs) == Reversed(xs[1..]) + [xs[0]];
  }

  // What the replay of a page sends, in full: from the page's last row to its first, the encoding of each row's message
  // that encodes: a chat with the row's id, its sender's name or "", its content and its creation time.
  lemma {:induction false} ReplayInFull(codec: Codec, names: map<Uuid, string>, page: seq<Row>,
      wire: Row -> WireMessage)
      returns (order: seq<nat>)
    requires forall row <- page :: wire(row)
               == WireMessage(Chat, Some(row.id), if row.senderID in names then names[row.senderID] else "",
                    Said(row.content), row.createdAt)
    ensures forall k, l :: 0 <= k < l < |order| ==> order[k] > order[l]
    ensures forall i: nat :: i in order <==> i < |page| && codec.marshal(wire(page[i])).Some?
    ensures var sent := ReplayBytes(codec, Each(page, WithNames(names)));
            |sent| == |order| && forall k :: 0 <= k < |order| ==>
              order[k] < |page| && codec.marshal(wire(page[order[k]])) == Some(sent[k])
    decreases |page|
  {
    order := [];
    if page != [] {
      assert page[0] in page && forall row <- page[1..] :: row in page;
      var later := ReplayInFull(codec, names, page[1..], wire);
      order := Shifted(page, codec, wire, later);
      ReplayEndsWithFirst(codec, names, page, wire(page[0]));
      ShiftedSends(page, codec, wire, later, order, ReplayBytes(codec, Each(page[1..], WithNames(names))));
    }
  }

  lemma ShiftedSends(page: seq<Row>, codec: Codec, wire: Row -> WireMessage, later: seq<nat>, order: seq<nat>,
      sent: seq<Bytes>)
    requires page != [] && |sent| == |later|
    requires |order| == |later| + (if codec.marshal(wire(page[0])).Some? then 1 else 0)
    requires forall k :: 0 <= k < |later| ==>
               later[k] < |page| - 1 && order[k] == later[k] + 1
               && codec.marshal(wire(page[1..][later[k]])) == Some(sent[k])
    requires |order| > |later| ==> order[|later|] == 0
    ensures var all := sent + if codec.marshal(wire(page[0])).Some? then [codec.marshal(wire(page[0])).value] else [];
            forall k :: 0 <= k < |order| ==>
              order[k] < |page| && codec.marshal(wire(page[order[k]])) == Some(all[k])
  {
    forall k | 0 <= k < |later| ensures page[order[k]] == page[1..][later[k]] {}
  }

  lemma ReplayEndsWithFirst(codec: Codec, names: map<Uuid, string>, page: seq<Row>, wire: WireMessage)
    requires page != []
    requires wire == WireMessage(Chat, Some(page[0].id),
                       if page[0].senderID in names then names[page[0].senderID] else "", Said(page[0].content),
                       page[0].createdAt)
    ensures ReplayBytes(codec, Each(page, WithNames(names)))
         == ReplayBytes(codec, Each(page[1..], WithNames(names)))
            + if codec.marshal(wire).Some? then [codec.marshal(wire).value] else []
  {
    var infos := Each(page, WithNames(names));
    assert infos[1..] == Each(page[1..], WithNames(names));
    assert InfoWire(infos[0]) == wire;
  }

  lemma Shifted(page: seq<Row>, codec: Codec, wire: Row -> WireMessage, later: seq<nat>) returns (order: seq<nat>)
    requires page != [] && forall k, l :: 0 <= k < l < |later| ==> later[k] > later[l]
    requires forall i: nat :: i in later <==> i < |page| - 1 && codec.marshal(wire(page[1..][i])).Some?
    ensures forall k, l :: 0 <= k < l < |order| ==> order[k] > order[l]
    ensures forall i: nat :: i in order <==> i < |page| && codec.marshal(wire(page[i])).Some?
    ensures |order| == |later| + (if codec.marshal(wire(page[0])).Some? then 1 else 0)
    ensures forall k :: 0 <= k < |later| ==> later[k] < |page| - 1 && order[k] == later[k] + 1
    ensures |order| > |later| ==> order[|later|] == 0
  {
    var up := seq(|later|, k requires 0 <= k < |later| => later[k] + 1);
    order := up + if codec.marshal(wire(page[0])).Some? then [0] else [];
    forall k | 0 <= k < |later| ensures later[k] < |page| - 1 { assert later[k] in later; }
    forall i: nat ensures i in order <==> i < |page| && codec.marshal(wire(page[i])).Some? {
      if i > 0 {
        if i in up { var k :| 0 <= k < |up| && up[k] == i; assert later[k] == i - 1 && later[k] in later; }
        if i - 1 in later { var k :| 0 <= k < |later| && later[k] == i - 1; assert up[k] == i; }
        if i < |page| { assert page[1..][i - 1] == page[i]; }
      }
    }
  }

  // A fresh client's queue after the replay holds, in order of creation, the first 256 of the page's messages counted
  // from the oldest. Up to a limit of 256 these are all of them: the newest messages of the room.
  lemma FreshClientHistory(codec: Codec, names: map<Uuid, string>, rows: seq<Row>, roomID: Uuid, limit: int,
      page: seq<Row>)
    returns (held: seq<Row>)
    requires IsPage(rows, roomID, limit, 0, page) && AllEncode(codec, names, page)
    ensures OfferAll([], ReplayBytes(codec, Each(page, WithNames(names))), SEND_BUFFER)
            == Each(held, BytesOf(codec, names))
    ensures forall k :: 0 <= k < |held| ==>
              codec.marshal(WireMessage(Chat, Some(held[k].id),
                if held[k].senderID in names then names[held[k].senderID] else "", Said(held[k].content),
                held[k].createdAt)) == Some(Each(held, BytesOf(codec, names))[k])
    ensures |held| == Min(|page|, 256) && multiset(held) <= multiset(page)
    ensures forall j, k :: 0 <= j < k < |held| ==> held[j].createdAt <= held[k].createdAt
    ensures 0 <= limit <= 256 ==>
              && |held| == Min(limit, |InRoom(rows, roomID)|)
              && NoneNewer(multiset(InRoom(rows, roomID)) - multiset(held), held)
    ensures forall r: Row, k :: r in multiset(page) - multiset(held) && 0 <= k < |held| ==>
            held[k].createdAt <= r.createdAt
  {
    PageIsTheNewest(rows, roomID, limit, page);
    QueueIsAPrefix(codec, names, page);
    held := Reversed(page)[..Min(|page|, 256)];
    OldestOfPage(page, Min(|page|, 256));
    HeldEncodes(codec, names, page, held);
    if 0 <= limit <= 256 { WholePage(rows, roomID, page, held); }
  }

  lemma HeldEncodes(codec: Codec, names: map<Uuid, string>, page: seq<Row>, held: seq<Row>)
    requires AllEncode(codec, names, page) && multiset(held) <= multiset(page)
    ensures forall k :: 0 <= k < |held| ==>
              codec.marshal(WireMessage(Chat, Some(held[k].id),
                if held[k].senderID in names then names[held[k].senderID] else "", Said(held[k].content),
                held[k].createdAt)) == Some(Each(held, BytesOf(codec, names))[k])
  {
    forall k | 0 <= k < |held| ensures held[k] in page {
      assert held[k] in multiset(held);
      assert held[k] in multiset(page);
    }
  }

  lemma QueueIsAPrefix(codec: Codec, names: map<Uuid, string>, page: seq<Row>)
    requires AllEncode(codec, names, page)
    ensures OfferAll([], ReplayBytes(codec, Each(page, WithNames(names))), SEND_BUFFER)
         == Each(Reversed(page)[..Min(|page|, 256)], BytesOf(codec, names))
  {
    ReplayOfEncodable(codec, names, page);
    OfferAllKeepsPrefix([], Each(Reversed(page), BytesOf(codec, names)), SEND_BUFFER);
  }

  // The first n of a page counted from its end are its n oldest, in order of creation.
  lemma OldestOfPage(page: seq<Row>, n: nat)
    requires NewestFirst(page) && n <= |page|
    ensures var held := Reversed(page)[..n];
            && OldestFirst(held) && multiset(held) <= multiset(page)
            && (forall r: Row, k :: r in multiset(page) - multiset(held) && 0 <= k < |held| ==>
                 held[k].createdAt <= r.createdAt)
            && (n == |page| ==> multiset(held) == multiset(page))
  {
    ReversedSame(page);
    ReversedIsOldestFirst(page);
    PrefixIsOldest(Reversed(page), n);
  }

  lemma PrefixIsOldest(order: seq<Row>, n: nat)
    requires OldestFirst(order) && n <= |order|
    ensures OldestFirst(order[..n]) && multiset(order[..n]) <= multiset(order)
    ensures forall r: Row, k :: r in multiset(order) - multiset(order[..n]) && 0 <= k < n ==>
              order[..n][k].createdAt <= r.createdAt
    ensures n == |order| ==> multiset(order[..n]) == multiset(order)
  {
    assert order == order[..n] + order[n..];
    MultisetOfParts(order, order[..n], order[n..]);
    assert n == |order| ==> order[..n] == order;
    RestIsNewer(order, n);
  }

  lemma ReversedIsOldestFirst(page: seq<Row>)
    requires NewestFirst(page)
    ensures OldestFirst(Reversed(page))
  {}

  lemma RestIsNewer(order: seq<Row>, n: nat)
    requires OldestFirst(order) && n <= |order|
    ensures forall r: Row, k :: r in multiset(order[n..]) && 0 <= k < n ==> order[k].createdAt <= r.createdAt
  {
    forall r: Row, k | r in multiset(order[n..]) && 0 <= k < n
      ensures order[k].createdAt <= r.createdAt
    {
      var j :| 0 <= j < |order[n..]| && order[n..][j] == r;
      assert order[n + j] == r;
    }
  }

  lemma WholePage(rows: seq<Row>, roomID: Uuid, page: seq<Row>, held: seq<Row>)
    requires multiset(held) == multiset(page) && NoneNewer(multiset(InRoom(rows, roomID)) - multiset(page), page)
    ensures NoneNewer(multiset(InRoom(rows, roomID)) - multiset(held), held)
  {
    forall r: Row, k | r in multiset(InRoom(rows, roomID)) - multiset(held) && 0 <= k < |held|
      ensures r.createdAt <= held[k].createdAt
    {
      assert held[k] in multiset(held);
      assert held[k] in page;
    }
  }

  lemma {:induction false} ReversedSame<T>(xs: seq<T>)
    ensures multiset(Reversed(xs)) == multiset(xs)
    decreases |xs|
  {
    if xs == [] {
      assert Reversed(xs) == [];
    } else {
      assert xs == [xs[0]] + xs[1..];
      assert Reversed(xs) == Reversed(xs[1..]) + [xs[0]];
      ReversedSame(xs[1..]);
    }
  }

  // The replay reaches a fresh client whole exactly when it is no longer than the queue. Beyond that it is the newest
  // messages that are lost.
  lemma ReplayIsWholeExactlyWhenItFits(codec: Codec, infos: seq<MessageInfo>)
    ensures OfferAll([], ReplayBytes(codec, infos), SEND_BUFFER) == ReplayBytes(codec, infos) <==>
            |ReplayBytes(codec, infos)| <= 256
    ensures OfferAll([], ReplayBytes(codec, infos), SEND_BUFFER) <= ReplayBytes(codec, infos)
  {
    OfferAllKeepsPrefix([], ReplayBytes(codec, infos), SEND_BUFFER);
  }
}
