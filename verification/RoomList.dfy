// The terminal client's room list and reconnect delay: which room is selected after each message, and how long each
// failed connection waits.
module RoomList {

  datatype Room = Room(id: string, name: string)

  /** Go's order on strings. */
  predicate Less(a: string, b: string) {
    b != [] && (a == [] || a[0] < b[0] || (a[0] == b[0] && Less(a[1..], b[1..])))
  }

  // That is: a proper prefix comes first, and otherwise the first place where they differ decides.
  lemma {:induction false} LessIsLexicographic(a: string, b: string)
    ensures Less(a, b) <==>
            a < b || exists k: nat :: k < |a| && k < |b| && a[..k] == b[..k] && a[k] < b[k]
    decreases |a|
  {
    if a != [] && b != [] {
      if a[0] == b[0] {
        LessIsLexicographic(a[1..], b[1..]);
        PrefixTail(a, b);
        DifferenceTail(a, b);
      } else {
        assert !(a < b);
        assert forall k: nat :: 0 < k < |a| && k < |b| ==> a[..k][0] == a[0] && b[..k][0] == b[0];
        if a[0] < b[0] { assert a[..0] == b[..0]; }
      }
    }
  }

  lemma PrefixTail(a: string, b: string)
    requires a != [] && b != [] && a[0] == b[0]
    ensures a < b <==> a[1..] < b[1..]
  {
    assert a == [a[0]] + a[1..] && b == [b[0]] + b[1..];
    if a < b { assert b[1..][..|a| - 1] == a[1..]; }
  }

  lemma DifferenceTail(a: string, b: string)
    requires a != [] && b != [] && a[0] == b[0]
    ensures (exists k: nat :: k < |a| && k < |b| && a[..k] == b[..k] && a[k] < b[k]) <==>
            exists k: nat :: k < |a[1..]| && k < |b[1..]| && a[1..][..k] == b[1..][..k] && a[1..][k] < b[1..][k]
  {
    if k: nat :| k < |a| && k < |b| && a[..k] == b[..k] && a[k] < b[k] {
      assert a[1..][..k - 1] == a[..k][1..] && b[1..][..k - 1] == b[..k][1..];
      assert a[1..][k - 1] < b[1..][k - 1];
    }
    if k: nat :| k < |a[1..]| && k < |b[1..]| && a[1..][..k] == b[1..][..k] && a[1..][k] < b[1..][k] {
      assert a[..k + 1] == [a[0]] + a[1..][..k] && b[..k + 1] == [b[0]] + b[1..][..k];
      assert a[k + 1] < b[k + 1];
    }
  }

  // Of two names, one comes first unless they are the same.
  lemma {:induction false} LessIsTotal(a: string, b: string)
    ensures Less(a, b) || a == b || Less(b, a)
    decreases |a|
  {
    if a != [] && b != [] && a[0] == b[0] {
      LessIsTotal(a[1..], b[1..]);
      assert a == [a[0]] + a[1..] && b == [b[0]] + b[1..];
    }
  }

  // Sorted names ascend: each is a prefix of a later one, or smaller where they first differ.
  lemma SortedAscends(rooms: seq<Room>, sorted: seq<Room>, i: nat, j: nat)
    requires SortOf(rooms, sorted) && i < j < |sorted|
    ensures var a, b := sorted[i].name, sorted[j].name;
            a <= b || exists k: nat :: k < |a| && k < |b| && a[..k] == b[..k] && a[k] < b[k]
  {
    LessIsTotal(sorted[i].name, sorted[j].name);
    LessIsLexicographic(sorted[i].name, sorted[j].name);
  }

  /** A result that the unstable sort by name may give. */
  predicate SortOf(rooms: seq<Room>, sorted: seq<Room>) {
    multiset(sorted) == multiset(rooms)
        && forall i, j :: 0 <= i < j < |sorted| ==> !Less(sorted[j].name, sorted[i].name)
  }

  /** The first room with an id, or the length of the list. */
  function FirstWith(rooms: seq<Room>, id: string): (k: nat)
    ensures k <= |rooms| && (k < |rooms| ==> rooms[k].id == id) && forall i :: 0 <= i < k ==> rooms[i].id != id
  {
    if rooms == [] || rooms[0].id == id then 0 else 1 + FirstWith(rooms[1..], id)
  }

  const SECOND: int := 1000
  const MAX_DELAY: int := 30 * SECOND

  datatype Model = Model(rooms: seq<Room>, roomIndex: nat, connectedTo: string, reconnectDelay: int, roomsFocused: bool)

  const INITIAL: Model := Model([], 0, "", SECOND, false)

  /** A message; `sorted` is what the sort makes of its list. Focus stands for the keys that only move the focus. */
  datatype Msg =
    | Rooms(list: seq<Room>, sorted: seq<Room>)
    | RoomCreated(room: Room, sorted: seq<Room>)
    | Connected(roomID: string)
    | Err
    | Up
    | Down
    | Enter
    | Focus(onRooms: bool)

  datatype Cmd = NoCmd | Connect(roomID: string) | ReconnectAfter(delay: int) | Crash

  predicate Possible(m: Model, msg: Msg) {
    match msg
    case Rooms(list, sorted) => SortOf(list, sorted)
    case RoomCreated(room, sorted) => SortOf(m.rooms + [room], sorted)
    case _ => true
  }

  function Reselect(rooms: seq<Room>, id: string, otherwise: nat): nat {
    if FirstWith(rooms, id) < |rooms| then FirstWith(rooms, id) else otherwise
  }

  /** The selected room's id, or "" when the index is past the end. */
  function SelectedID(m: Model): string { if m.roomIndex < |m.rooms| then m.rooms[m.roomIndex].id else "" }

  function Double(delay: int): int { if delay * 2 < MAX_DELAY then delay * 2 else MAX_DELAY }

  function Update(m: Model, msg: Msg): (Model, Cmd) {
    match msg
    case Rooms(list, sorted) =>
      (m.(rooms := sorted, roomIndex := if SelectedID(m) != ""
          then Reselect(sorted, SelectedID(m), m.roomIndex) else m.roomIndex),
       if m.connectedTo == "" && |sorted| > 0 then Connect(sorted[0].id) else NoCmd)
    case RoomCreated(room, sorted) =>
      (m.(rooms := sorted, roomIndex := Reselect(sorted, room.id, m.roomIndex), roomsFocused := true), Connect(room.id))
    case Connected(roomID) => (m.(connectedTo := roomID, reconnectDelay := SECOND), NoCmd)
    case Err =>
      if m.connectedTo != "" then (m.(reconnectDelay := Double(m.reconnectDelay)), ReconnectAfter(m.reconnectDelay))
          else (m, NoCmd)
    case Up => (if m.roomsFocused && m.roomIndex > 0 then m.(roomIndex := m.roomIndex - 1) else m, NoCmd)
    case Down => (if m.roomsFocused && m.roomIndex < |m.rooms| - 1 then m.(roomIndex := m.roomIndex + 1) else m, NoCmd)
    case Enter =>
      if m.roomsFocused && |m.rooms| > 0 then
        if m.roomIndex < |m.rooms| then (m.(roomsFocused := false), Connect(m.rooms[m.roomIndex].id)) else (m, Crash)
      else (m, NoCmd)
    case Focus(onRooms) => (m.(roomsFocused := onRooms), NoCmd)
  }

  // ---- runs ----

  predicate Legal(m: Model, msgs: seq<Msg>)
    decreases |msgs|
  {
    msgs == [] || (Possible(m, msgs[0]) && Legal(Update(m, msgs[0]).0, msgs[1..]))
  }

  function After(m: Model, msgs: seq<Msg>): Model
    decreases |msgs|
  {
    if msgs == [] then m else After(Update(m, msgs[0]).0, msgs[1..])
  }

  lemma {:induction false} AfterNext(m: Model, msgs: seq<Msg>, i: nat)
    requires i < |msgs| && Legal(m, msgs)
    ensures Possible(After(m, msgs[..i]), msgs[i])
    ensures After(m, msgs[..i + 1]) == Update(After(m, msgs[..i]), msgs[i]).0
    decreases i
  {
    if i > 0 {
      assert msgs[..i][1..] == msgs[1..][..i - 1] && msgs[..i + 1][1..] == msgs[1..][..i];
      AfterNext(Update(m, msgs[0]).0, msgs[1..], i - 1);
    } else {
      assert msgs[..1][1..] == [];
    }
  }

  // ---- selection ----

  // A refresh shows the server's rooms, sorted; the selected room stays selected if it is still there, and otherwise
  // the index stays where it was.
  lemma RefreshKeepsSelection(m: Model, list: seq<Room>, sorted: seq<Room>)
    requires SortOf(list, sorted)
    ensures var m' := Update(m, Rooms(list, sorted)).0;
            && multiset(m'.rooms) == multiset(list)
            && ((exists room <- list :: room.id == SelectedID(m) != "") ==>
                 m'.roomIndex < |m'.rooms| && SelectedID(m') == SelectedID(m))
            && ((forall room <- list :: room.id != SelectedID(m)) || SelectedID(m) == "" ==>
                 m'.roomIndex == m.roomIndex)
    ensures var shown := Update(m, Rooms(list, sorted)).0.rooms;
            forall i, j :: 0 <= i < j < |shown| ==>
              var a, b := shown[i].name, shown[j].name;
              a <= b || exists k: nat :: k < |a| && k < |b| && a[..k] == b[..k] && a[k] < b[k]
  {
    SameRooms(list, sorted);
    forall i, j | 0 <= i < j < |sorted|
      ensures var a, b := sorted[i].name, sorted[j].name;
              a <= b || exists k: nat :: k < |a| && k < |b| && a[..k] == b[..k] && a[k] < b[k]
    {
      SortedAscends(list, sorted, i, j);
    }
  }

  lemma SameRooms(list: seq<Room>, sorted: seq<Room>)
    requires multiset(sorted) == multiset(list)
    ensures |sorted| == |list| && forall room :: room in sorted <==> room in list
  {
    assert |sorted| == |multiset(sorted)| && |list| == |multiset(list)|;
    forall room ensures room in sorted <==> room in list {
      assert room in multiset(sorted) <==> room in multiset(list);
    }
  }

  // A created room joins the list and is selected.
  lemma CreatedRoomIsSelected(m: Model, room: Room, sorted: seq<Room>)
    requires SortOf(m.rooms + [room], sorted)
    ensures var (m', cmd) := Update(m, RoomCreated(room, sorted));
            && multiset(m'.rooms) == multiset(m.rooms) + multiset{room}
            && m'.roomIndex < |m'.rooms| && SelectedID(m') == room.id && cmd == Connect(room.id) && m'.roomsFocused
    ensures var shown := Update(m, RoomCreated(room, sorted)).0.rooms;
            forall i, j :: 0 <= i < j < |shown| ==>
              var a, b := shown[i].name, shown[j].name;
              a <= b || exists k: nat :: k < |a| && k < |b| && a[..k] == b[..k] && a[k] < b[k]
  {
    forall i, j | 0 <= i < j < |sorted|
      ensures var a, b := sorted[i].name, sorted[j].name;
              a <= b || exists k: nat :: k < |a| && k < |b| && a[..k] == b[..k] && a[k] < b[k]
    {
      SortedAscends(m.rooms + [room], sorted, i, j);
    }
    assert room in multiset(m.rooms + [room]);
    assert room in multiset(sorted);
    assert room in sorted;
  }

  /** Nothing can be read past the list's end. */
  predicate InRange(m: Model) { m.roomIndex == 0 || m.roomIndex < |m.rooms| }

  /** A refresh that holds the selected room, or still reaches as far as the index. */
  predicate Kind(m: Model, msg: Msg) {
    msg.Rooms? ==>
      || (SelectedID(m) != "" && exists room <- msg.list :: room.id == SelectedID(m))
      || m.roomIndex < |msg.list| || m.roomIndex == 0
  }

  lemma StepInRange(m: Model, msg: Msg)
    requires InRange(m) && Possible(m, msg)
    ensures InRange(Update(m, msg).0) <==> Kind(m, msg)
  {
    match msg
    case Rooms(list, sorted) =>
      RefreshKeepsSelection(m, list, sorted);
      SameRooms(list, sorted);
      if FirstWith(sorted, SelectedID(m)) < |sorted| {
        assert sorted[FirstWith(sorted, SelectedID(m))] in list;
      }
    case RoomCreated(room, sorted) => CreatedRoomIsSelected(m, room, sorted);
    case _ =>
  }

  // The index stays in range over a whole run exactly when every refresh of the run holds the selected room or reaches
  // as far as the index.
  lemma {:induction false} IndexInRangeExactlyWhenRefreshesAreKind(m: Model, msgs: seq<Msg>)
    requires InRange(m) && Legal(m, msgs)
    ensures (forall i :: 0 <= i <= |msgs| ==> InRange(After(m, msgs[..i])))
       <==> (forall i :: 0 <= i < |msgs| ==> Kind(After(m, msgs[..i]), msgs[i]))
  {
    if forall i :: 0 <= i <= |msgs| ==> InRange(After(m, msgs[..i])) {
      forall i | 0 <= i < |msgs| ensures Kind(After(m, msgs[..i]), msgs[i]) {
        AfterNext(m, msgs, i);
        StepInRange(After(m, msgs[..i]), msgs[i]);
      }
    } else {
      var bad :| 0 <= bad <= |msgs| && !InRange(After(m, msgs[..bad]));
      FirstUnkind(m, msgs, bad);
    }
  }

  lemma {:induction false} FirstUnkind(m: Model, msgs: seq<Msg>, bad: nat)
    requires InRange(m) && Legal(m, msgs) && bad <= |msgs| && !InRange(After(m, msgs[..bad]))
    ensures exists i :: 0 <= i < bad && !Kind(After(m, msgs[..i]), msgs[i])
    decreases bad
  {
    if bad == 0 {
      assert false;
    } else if InRange(After(m, msgs[..bad - 1])) {
      AfterNext(m, msgs, bad - 1);
      StepInRange(After(m, msgs[..bad - 1]), msgs[bad - 1]);
    } else {
      FirstUnkind(m, msgs, bad - 1);
    }
  }

  // Opening the selected room reads past the end exactly when the list has the focus, is not empty, and the index is
  // out of range; in range, it connects to the selected room.
  lemma EnterCrashesExactlyWhenOutOfRange(m: Model)
    ensures Update(m, Enter).1 == Crash <==> m.roomsFocused && m.rooms != [] && !InRange(m)
    ensures m.roomsFocused && m.rooms != [] && InRange(m) ==> Update(m, Enter).1 == Connect(SelectedID(m))
  {}

  // Opening the selection reads past the end at some point of a run only if a refresh before it was not kind.
  lemma OpeningCrashesOnlyAfterUnkindRefresh(m: Model, msgs: seq<Msg>, i: nat)
    requires InRange(m) && Legal(m, msgs) && i <= |msgs| && Update(After(m, msgs[..i]), Enter).1 == Crash
    ensures exists k :: 0 <= k < i && !Kind(After(m, msgs[..k]), msgs[k])
  {
    EnterCrashesExactlyWhenOutOfRange(After(m, msgs[..i]));
    FirstUnkind(m, msgs, i);
  }

  // The index can go stale: the second of two rooms is selected, and then a refresh brings one other room.
  lemma StaleIndexIsReachable() returns (msgs: seq<Msg>)
    ensures Legal(INITIAL, msgs) && Update(After(INITIAL, msgs), Enter).1 == Crash
  {
    var a, b, c := Room("1", "a"), Room("2", "b"), Room("3", "c");
    msgs := [Rooms([a, b], [a, b]), Focus(true), Down, Rooms([c], [c])];
    var m1, m2, m3 := Model([a, b], 0, "", SECOND, false), Model([a, b], 0, "", SECOND, true),
        Model([a, b], 1, "", SECOND, true);
    assert FirstWith([c], "2") == 1;
    OneMore(m3, msgs[3], []);
    OneMore(m2, msgs[2], [msgs[3]]);
    OneMore(m1, msgs[1], [msgs[2]] + [msgs[3]]);
    OneMore(INITIAL, msgs[0], [msgs[1]] + ([msgs[2]] + [msgs[3]]));
    assert msgs == [msgs[0]] + ([msgs[1]] + ([msgs[2]] + ([msgs[3]] + [])));
    assert [msgs[3]] + [] == [msgs[3]];
  }

  lemma OneMore(m: Model, msg: Msg, rest: seq<Msg>)
    requires Possible(m, msg) && Legal(Update(m, msg).0, rest)
    ensures Legal(m, [msg] + rest) && After(m, [msg] + rest) == After(Update(m, msg).0, rest)
  {
    assert ([msg] + rest)[1..] == rest;
  }

  // ---- reconnecting ----

  function Pow2(k: nat): (r: int)
    ensures r >= 1
  {
    if k == 0 then 1 else 2 * Pow2(k - 1)
  }

  /** min(2^k, 30) seconds. */
  function Backoff(k: nat): int { (if Pow2(k) < 30 then Pow2(k) else 30) * SECOND }

  /** How many errors came since the last connection. */
  function ErrorsSince(msgs: seq<Msg>): nat {
    if msgs == [] then 0
    else
      var last := msgs[|msgs| - 1];
      if last.Connected? then 0 else ErrorsSince(msgs[..|msgs| - 1]) + (if last.Err? then 1 else 0)
  }

  /** The room the client last connected to, or "" if it never has. */
  function LastConnection(msgs: seq<Msg>): string {
    if msgs == [] then ""
    else if msgs[|msgs| - 1].Connected? then msgs[|msgs| - 1].roomID else LastConnection(msgs[..|msgs| - 1])
  }

  lemma {:induction false} DelayIsBackoff(msgs: seq<Msg>)
    requires Legal(INITIAL, msgs)
    ensures var m := After(INITIAL, msgs);
            m.connectedTo == LastConnection(msgs)
                && (m.connectedTo != "" ==> m.reconnectDelay == Backoff(ErrorsSince(msgs)))
    decreases |msgs|
  {
    if msgs != [] {
      var n := |msgs| - 1;
      LegalPrefix(INITIAL, msgs, n);
      DelayIsBackoff(msgs[..n]);
      AfterNext(INITIAL, msgs, n);
      assert msgs[..n + 1] == msgs;
      NextDelay(After(INITIAL, msgs[..n]), msgs[n], ErrorsSince(msgs[..n]));
    }
  }

  lemma NextDelay(m: Model, msg: Msg, errors: nat)
    requires m.connectedTo != "" ==> m.reconnectDelay == Backoff(errors)
    ensures var m' := Update(m, msg).0;
            && m'.connectedTo == (if msg.Connected? then msg.roomID else m.connectedTo)
            && (m'.connectedTo != "" ==>
                 m'.reconnectDelay == Backoff(if msg.Connected? then 0 else if msg.Err? then errors + 1 else errors))
  {}

  lemma {:induction false} LegalPrefix(m: Model, msgs: seq<Msg>, n: nat)
    requires Legal(m, msgs) && n <= |msgs|
    ensures Legal(m, msgs[..n])
    decreases n
  {
    if n > 0 {
      assert msgs[..n][1..] == msgs[1..][..n - 1];
      LegalPrefix(Update(m, msgs[0]).0, msgs[1..], n - 1);
    }
  }

  // In every run, with anything interleaved, the (k+1)-th error since the client last connected waits min(2^k, 30)
  // seconds; before it has ever connected, an error waits for nothing.
  lemma {:induction false} ErrorWaits(msgs: seq<Msg>)
    requires Legal(INITIAL, msgs)
    ensures Update(After(INITIAL, msgs), Err).1
         == if LastConnection(msgs) != "" then ReconnectAfter(Backoff(ErrorsSince(msgs))) else NoCmd
  {
    DelayIsBackoff(msgs);
  }

  // In every run a refresh connects by itself, to the first room shown, exactly when the client has never connected and
  // there is a room; and no room of the list has a name before that room's.
  lemma {:induction false} OnlyFirstLoadConnects(msgs: seq<Msg>, list: seq<Room>, sorted: seq<Room>)
    requires Legal(INITIAL, msgs) && SortOf(list, sorted)
    ensures Update(After(INITIAL, msgs), Rooms(list, sorted)).1
         == if LastConnection(msgs) == "" && sorted != [] then Connect(sorted[0].id) else NoCmd
    ensures forall room <- list ::
              sorted != [] && var a, b := sorted[0].name, room.name;
              a <= b || exists k: nat :: k < |a| && k < |b| && a[..k] == b[..k] && a[k] < b[k]
  {
    DelayIsBackoff(msgs);
    SameRooms(list, sorted);
    forall room | room in list
      ensures sorted != [] && var a, b := sorted[0].name, room.name;
              a <= b || exists k: nat :: k < |a| && k < |b| && a[..k] == b[..k] && a[k] < b[k]
    {
      var j :| 0 <= j < |sorted| && sorted[j] == room;
      if j > 0 { SortedAscends(list, sorted, 0, j); }
    }
  }

  // The room a client is connected to, without the model's history: that of the last connection of the run.
  lemma {:induction false} ConnectedToTheLast(msgs: seq<Msg>, i: nat)
    requires Legal(INITIAL, msgs) && i < |msgs| && msgs[i].Connected?
             && forall j :: i < j < |msgs| ==> !msgs[j].Connected?
    ensures After(INITIAL, msgs).connectedTo == msgs[i].roomID && LastConnection(msgs) == msgs[i].roomID
    decreases |msgs|
  {
    DelayIsBackoff(msgs);
    if i < |msgs| - 1 {
      LegalPrefix(INITIAL, msgs, |msgs| - 1);
      ConnectedToTheLast(msgs[..|msgs| - 1], i);
    }
  }

  // The first error after a connection waits one second.
  lemma FirstErrorWaitsASecond(msgs: seq<Msg>, i: nat)
    requires Legal(INITIAL, msgs) && i < |msgs| && msgs[i].Connected? && msgs[i].roomID != ""
             && forall j :: i < j < |msgs| ==> !msgs[j].Connected? && !msgs[j].Err?
    ensures Update(After(INITIAL, msgs), Err).1 == ReconnectAfter(1000)
  {
    ConnectedToTheLast(msgs, i);
    ErrorWaits(msgs);
    NoErrorsSince(msgs, i);
  }

  lemma {:induction false} NoErrorsSince(msgs: seq<Msg>, i: nat)
    requires i < |msgs| && msgs[i].Connected? && forall j :: i < j < |msgs| ==> !msgs[j].Connected? && !msgs[j].Err?
    ensures ErrorsSince(msgs) == 0
    decreases |msgs|
  {
    if i < |msgs| - 1 { NoErrorsSince(msgs[..|msgs| - 1], i); }
  }

  // Each further error waits twice as long as the one before, but never over thirty seconds.
  lemma {:induction false} NextErrorWaitsTwice(m: Model, delay: int, others: seq<Msg>)
    requires Update(m, Err).1 == ReconnectAfter(delay) && Legal(Update(m, Err).0, others)
    requires forall j :: 0 <= j < |others| ==> !others[j].Connected? && !others[j].Err?
    ensures Update(After(Update(m, Err).0, others), Err).1
         == ReconnectAfter(if 2 * delay < 30000 then 2 * delay else 30000)
  {
    OthersKeepDelay(Update(m, Err).0, others);
  }

  lemma {:induction false} OthersKeepDelay(m: Model, others: seq<Msg>)
    requires Legal(m, others) && forall j :: 0 <= j < |others| ==> !others[j].Connected? && !others[j].Err?
    ensures After(m, others).connectedTo == m.connectedTo && After(m, others).reconnectDelay == m.reconnectDelay
    decreases |others|
  {
    if others != [] { OthersKeepDelay(Update(m, others[0]).0, others[1..]); }
  }

  // ---- the keys ----

  predicate IsArrow(msg: Msg) { msg == Up || msg == Down }

  /** The same key pressed n times. */
  function Times(key: Msg, n: nat): (r: seq<Msg>)
    ensures |r| == n && forall i :: 0 <= i < n ==> r[i] == key
  {
    seq(n, _ => key)
  }

  lemma {:induction false} DownsMove(m: Model, n: nat)
    requires m.roomsFocused && m.roomIndex + n < |m.rooms|
    ensures Legal(m, Times(Down, n)) && After(m, Times(Down, n)) == m.(roomIndex := m.roomIndex + n)
    decreases n
  {
    if n > 0 {
      assert Times(Down, n)[1..] == Times(Down, n - 1);
      DownsMove(m.(roomIndex := m.roomIndex + 1), n - 1);
    }
  }

  lemma {:induction false} UpsMove(m: Model, n: nat)
    requires m.roomsFocused && n <= m.roomIndex
    ensures Legal(m, Times(Up, n)) && After(m, Times(Up, n)) == m.(roomIndex := m.roomIndex - n)
    decreases n
  {
    if n > 0 {
      assert Times(Up, n)[1..] == Times(Up, n - 1);
      UpsMove(m.(roomIndex := m.roomIndex - 1), n - 1);
    }
  }

  // Every room of a list that has the focus can be inside with the arrow keys and enter, also from a stale index; from
  // then on the keys go to the text input and leave the list alone.
  lemma EveryRoomCanBeOpened(m: Model, k: nat) returns (keys: seq<Msg>)
    requires m.roomsFocused && k < |m.rooms|
    ensures keys == if k < m.roomIndex then Times(Up, m.roomIndex - k) else Times(Down, k - m.roomIndex)
    ensures Legal(m, keys) && Update(After(m, keys), Enter).1 == Connect(m.rooms[k].id)
    ensures var inside := Update(After(m, keys), Enter).0;
            && inside.rooms == m.rooms && inside.roomIndex == k
            && Update(inside, Up) == Update(inside, Down) == Update(inside, Enter) == (inside, NoCmd)
  {
    if k < m.roomIndex {
      UpsMove(m, m.roomIndex - k);
      keys := Times(Up, m.roomIndex - k);
    } else {
      DownsMove(m, k - m.roomIndex);
      keys := Times(Down, k - m.roomIndex);
    }
  }

  // The arrow keys never leave the list: whichever is pressed, an index in range stays in range, and everything else
  // stays as it was; at either end of the list nothing changes.
  lemma ArrowsStayInTheList(m: Model, key: Msg)
    requires IsArrow(key) && InRange(m)
    ensures var m' := Update(m, key).0;
            && InRange(m') && m' == m.(roomIndex := m'.roomIndex)
            && (m.roomIndex == 0 && key == Up ==> m' == m)
            && (m.roomIndex + 1 >= |m.rooms| && key == Down ==> m' == m)
  {}

  // ---- the reducer over its fields ----

  class Screen {
    var rooms: seq<Room>
    var roomIndex: nat
    var connectedTo: string
    var reconnectDelay: int
    var roomsFocused: bool

    constructor ()
      ensures State() == INITIAL
    {
      rooms, roomIndex, connectedTo, reconnectDelay, roomsFocused := [], 0, "", SECOND, false;
    }

    function State(): Model
      reads this
    {
      Model(rooms, roomIndex, connectedTo, reconnectDelay, roomsFocused)
    }

    // The search loop stops at the first room with the id, and leaves the index alone if there is none.
    method SelectRoom(id: string)
      modifies this`roomIndex
      ensures roomIndex == Reselect(rooms, id, old(roomIndex))
    {
      for i := 0 to |rooms|
        invariant roomIndex == old(roomIndex) && i <= FirstWith(rooms, id)
      {
        if rooms[i].id == id {
          roomIndex := i;
          break;
        }
      }
    }

    // One message. The command is Crash where the code reads past the end of the list.
    method Receive(msg: Msg) returns (cmd: Cmd)
      requires Possible(State(), msg)
      modifies this
      ensures (State(), cmd) == Update(old(State()), msg)
    {
      match msg {
        case Rooms(_, sorted) =>
          var oldSelectedID := "";
          if roomIndex < |rooms| {
            oldSelectedID := rooms[roomIndex].id;
          }
          rooms := sorted;
          if oldSelectedID != "" {
            SelectRoom(oldSelectedID);
          }
          if connectedTo == "" && |rooms| > 0 {
            return Connect(rooms[0].id);
          }
        case RoomCreated(room, sorted) =>
          rooms := sorted;
          SelectRoom(room.id);
          roomsFocused := true;
          return Connect(room.id);
        case Connected(roomID) =>
          connectedTo := roomID;
          reconnectDelay := SECOND;
        case Err =>
          if connectedTo != "" {
            var delay := reconnectDelay;
            reconnectDelay := if delay * 2 < MAX_DELAY then delay * 2 else MAX_DELAY;
            return ReconnectAfter(delay);
          }
        case Up =>
          if roomsFocused && roomIndex > 0 {
            roomIndex := roomIndex - 1;
          }
        case Down =>
          if roomsFocused && roomIndex < |rooms| - 1 {
            roomIndex := roomIndex + 1;
          }
        case Enter =>
          if roomsFocused && |rooms| > 0 {
            if roomIndex >= |rooms| {
              return Crash;
            }
            roomsFocused := false;
            return Connect(rooms[roomIndex].id);
          }
        case Focus(onRooms) =>
          roomsFocused := onRooms;
      }
      return NoCmd;
    }
  }
}
