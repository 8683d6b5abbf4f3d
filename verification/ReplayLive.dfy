// What a joiner is replayed of a member's messages, byte for byte, against what was broadcast live.
module ReplayLive {
  import opened Basics
  import opened HubClasses
  import opened Messages
  import opened ChatStore
  import opened FramePipeline
  import opened History

  function EncodedOf(codec: Codec): MessageInfo -> seq<Bytes> { (m: MessageInfo) => Encoded(codec, m) }

  // The replay of a page is the flat map over its rows from the last to the first.
  lemma {:induction false} ReplayOfReversed(codec: Codec, infos: seq<MessageInfo>)
    ensures ReplayBytes(codec, Reversed(infos)) == Collect(infos, EncodedOf(codec))
    decreases |infos|
  {
    if infos == [] {
      assert Reversed(infos) == [];
    } else {
      var n := |infos| - 1;
      ReplayOfReversed(codec, infos[..n]);
      assert Reversed(infos)[1..] == Reversed(infos[..n]);
    }
  }

  lemma {:induction false} CollectEach<T, U, V>(xs: seq<T>, f: T -> U, g: U -> seq<V>, h: T -> seq<V>)
    requires forall x <- xs :: g(f(x)) == h(x)
    ensures Collect(Each(xs, f), g) == Collect(xs, h)
    decreases |xs|
  {
    if xs != [] {
      var n := |xs| - 1;
      assert Each(xs, f)[..n] == Each(xs[..n], f) && xs[n] in xs;
      CollectEach(xs[..n], f, g, h);
    }
  }

  // One saved frame: what is replayed of its row is what was broadcast for it.
  lemma SameBytes(codec: Codec, username: string, i: Input, senderID: Uuid, roomID: Uuid, names: map<Uuid, string>)
    requires SavedChats(codec)(i) && TimeFilledIn(i) && senderID in names && names[senderID] == username
    ensures Encoded(codec, Info(AsRow(senderID, roomID)(i), names)) == Collect(Effects(codec, username, i), SentOf)
  {
    ViewOfTurn(codec, username, i, SentOf);
    assert InfoWire(Info(AsRow(senderID, roomID)(i), names)) == ChatWire(username, i.data, i.saved, i.now);
  }

  // The replay of a member's stored messages is, byte for byte, what was broadcast live for the saved frames, as long
  // as the database filled in their creation times and has the member's name.
  lemma ReplayedBytesAreLiveBytes(codec: Codec, username: string, inputs: seq<Input>, senderID: Uuid, roomID: Uuid,
      names: map<Uuid, string>)
    requires senderID in names && names[senderID] == username
    requires forall i <- Where(inputs, SavedChats(codec)) :: TimeFilledIn(i)
    ensures var rows := Rows(Trace(codec, username, inputs), senderID, roomID);
            ReplayBytes(codec, Each(Reversed(rows), WithNames(names)))
            == SentBytes(Trace(codec, username, Where(inputs, SavedChats(codec))))
  {
    var rows, saved := Rows(Trace(codec, username, inputs), senderID, roomID), Where(inputs, SavedChats(codec));
    var sent := (i: Input) => Collect(Effects(codec, username, i), SentOf);
    RowsAreTheSavedChats(codec, username, inputs, senderID, roomID);
    WhereHolds(inputs, SavedChats(codec));
    assert Each(Reversed(rows), WithNames(names)) == Reversed(Each(rows, WithNames(names)));
    ReplayOfReversed(codec, Each(rows, WithNames(names)));
    var ofRow := (row: Row) => Encoded(codec, Info(row, names));
    CollectEach(rows, WithNames(names), EncodedOf(codec), ofRow);
    forall i | i in saved ensures ofRow(AsRow(senderID, roomID)(i)) == sent(i) {
      SameBytes(codec, username, i, senderID, roomID, names);
    }
    CollectEach(saved, AsRow(senderID, roomID), ofRow, sent);
    ViewOfTrace(codec, username, saved, SentOf, sent);
  }
}
