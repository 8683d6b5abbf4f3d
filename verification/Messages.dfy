// Messages on the wire and in the store, and the little theory of flat maps that their traces need.
module Messages {
  import opened Basics
  import opened HubClasses

  type Time = int

  const ZERO_TIME: Time := 0
  const NIL_ID: Uuid := 0
  const MAX_MESSAGE_LENGTH: nat := 300

  datatype Kind = Chat | Typing | Error

  /** Nothing, the fixed text of the "too long" error, or what a user wrote. */
  datatype Content = NoContent | TooLongNotice | Said(data: Bytes)

  datatype WireMessage = WireMessage(kind: Kind, id: Option<Uuid>, author: string, content: Content, timestamp: Time)

  /** The JSON library: whether a frame decodes to a typing event,
      and the bytes of a wire message unless encoding fails. */
  datatype Codec = Codec(isTyping: Bytes -> bool, marshal: WireMessage -> Option<Bytes>)

  /** A stored message. */
  datatype Row = Row(id: Uuid, content: Bytes, senderID: Uuid, roomID: Uuid, createdAt: Time)

  /** What the database makes of an insert: the id and time it fills in, or an error. */
  datatype Saved = Saved(id: Uuid, createdAt: Time) | SaveFailed

  /** The message that a frame's persisted form becomes for the other members. */
  function ChatWire(username: string, data: Bytes, saved: Saved, now: Time): WireMessage {
    match saved
    case Saved(id, createdAt) =>
      WireMessage(Chat, Some(id), username, Said(data), if createdAt == ZERO_TIME then now else createdAt)
    case SaveFailed => WireMessage(Chat, Some(NIL_ID), username, Said(data), now)
  }

  /** The message that a stored row becomes for a joiner; author is its sender's name. */
  function HistoryWire(row: Row, author: string): WireMessage {
    WireMessage(Chat, Some(row.id), author, Said(row.content), row.createdAt)
  }

  // A live message and its replay are the same message exactly when the database filled in a time, or the clock had
  // none either.
  lemma LiveAndReplayedAgree(username: string, data: Bytes, saved: Saved, senderID: Uuid, roomID: Uuid, now: Time)
    requires saved.Saved?
    ensures ChatWire(username, data, saved, now)
            == HistoryWire(Row(saved.id, data, senderID, roomID, saved.createdAt), username)
       <==> saved.createdAt != ZERO_TIME || now == ZERO_TIME
  {}

  // ---- flat maps ----

  /** f of every element, in order, strung together. */
  function Collect<T, U>(xs: seq<T>, f: T -> seq<U>): seq<U> {
    if xs == [] then [] else Collect(xs[..|xs| - 1], f) + f(xs[|xs| - 1])
  }

  lemma CollectNext<T, U>(xs: seq<T>, i: nat, f: T -> seq<U>)
    requires i < |xs|
    ensures Collect(xs[..i + 1], f) == Collect(xs[..i], f) + f(xs[i])
  {
    assert xs[..i + 1][..i] == xs[..i];
  }

  lemma {:induction false} CollectAppend<T, U>(xs: seq<T>, ys: seq<T>, f: T -> seq<U>)
    ensures Collect(xs + ys, f) == Collect(xs, f) + Collect(ys, f)
    decreases |ys|
  {
    if ys == [] {
      assert xs + ys == xs;
    } else {
      var n := |ys| - 1;
      assert (xs + ys)[..|xs + ys| - 1] == xs + ys[..n];
      CollectAppend(xs, ys[..n], f);
    }
  }

  // Two flat maps one after the other are the flat map of what they do to each element.
  lemma {:induction false} CollectCompose<T, U, V>(xs: seq<T>, f: T -> seq<U>, g: U -> seq<V>, h: T -> seq<V>)
    requires forall x <- xs :: Collect(f(x), g) == h(x)
    ensures Collect(Collect(xs, f), g) == Collect(xs, h)
    decreases |xs|
  {
    if xs != [] {
      var n := |xs| - 1;
      CollectAppend(Collect(xs[..n], f), f(xs[n]), g);
      CollectCompose(xs[..n], f, g, h);
      assert xs[n] in xs;
    }
  }

  lemma CollectOne<T, U>(x: T, f: T -> seq<U>)
    ensures Collect([x], f) == f(x)
  {
    assert [x][..0] == [];
  }

  lemma CollectTwo<T, U>(x: T, y: T, f: T -> seq<U>)
    ensures Collect([x, y], f) == f(x) + f(y)
  {
    CollectAppend([x], [y], f);
    CollectOne(x, f);
    CollectOne(y, f);
    assert [x, y] == [x] + [y];
  }

  function Keep<T>(p: T -> bool): T -> seq<T> { x => if p(x) then [x] else [] }

  function Single<T, U>(f: T -> U): T -> seq<U> { x => [f(x)] }

  /** The elements that pass a test. */
  function Where<T>(xs: seq<T>, p: T -> bool): seq<T> { Collect(xs, Keep(p)) }

  /** f of every element. */
  function Each<T, U>(xs: seq<T>, f: T -> U): (r: seq<U>)
    ensures |r| == |xs| && forall i :: 0 <= i < |xs| ==> r[i] == f(xs[i])
  {
    seq(|xs|, i requires 0 <= i < |xs| => f(xs[i]))
  }

  lemma {:induction false} CollectOnes<T, U>(xs: seq<T>, f: T -> U)
    ensures Collect(xs, Single(f)) == Each(xs, f)
    decreases |xs|
  {
    if xs != [] {
      CollectOnes(xs[..|xs| - 1], f);
    }
  }

  lemma {:induction false} WhereHolds<T>(xs: seq<T>, p: T -> bool)
    ensures forall x <- Where(xs, p) :: p(x)
    decreases |xs|
  {
    if xs != [] {
      WhereHolds(xs[..|xs| - 1], p);
    }
  }

  // Keeping everything.
  lemma {:induction false} WhereAll<T>(xs: seq<T>, p: T -> bool)
    requires forall x <- xs :: p(x)
    ensures Where(xs, p) == xs
    decreases |xs|
  {
    if xs != [] {
      WhereAll(xs[..|xs| - 1], p);
      assert xs[|xs| - 1] in xs;
    }
  }

  // f of the elements that pass p is the flat map that skips the others.
  lemma CollectWhere<T, U>(xs: seq<T>, p: T -> bool, f: T -> seq<U>, h: T -> seq<U>)
    requires forall x <- xs :: h(x) == if p(x) then f(x) else []
    ensures Collect(Where(xs, p), f) == Collect(xs, h)
  {
    forall x | x in xs ensures Collect(Keep(p)(x), f) == h(x) {
      if p(x) { CollectOne(x, f); }
    }
    CollectCompose(xs, Keep(p), f, h);
  }

  predicate Ascending(order: seq<nat>) { forall k, l :: 0 <= k < l < |order| ==> order[k] < order[l] }

  // A flat map of at most one value each gives the values of the elements that have one, in order.
  lemma {:induction false} CollectInOrder<T, U>(xs: seq<T>, p: T -> bool, f: T -> U, h: T -> seq<U>)
      returns (order: seq<nat>)
    requires forall x <- xs :: h(x) == if p(x) then [f(x)] else []
    ensures Ascending(order) && forall i: nat :: i in order <==> i < |xs| && p(xs[i])
    ensures |Collect(xs, h)| == |order|
    ensures forall k :: 0 <= k < |order| ==> order[k] < |xs| && Collect(xs, h)[k] == f(xs[order[k]])
    decreases |xs|
  {
    order := [];
    if xs != [] {
      var n := |xs| - 1;
      var front := xs[..n];
      order := CollectInOrder(front, p, f, h);
      assert xs[n] in xs;
      if p(xs[n]) { order := OneMoreInOrder(xs, p, order); }
    }
  }

  lemma OneMoreInOrder<T>(xs: seq<T>, p: T -> bool, head: seq<nat>) returns (order: seq<nat>)
    requires xs != [] && Ascending(head) && p(xs[|xs| - 1])
    requires forall i: nat :: i in head <==> i < |xs| - 1 && p(xs[..|xs| - 1][i])
    ensures order == head + [|xs| - 1] && Ascending(order)
    ensures forall i: nat :: i in order <==> i < |xs| && p(xs[i])
  {
    var n := |xs| - 1;
    forall k | 0 <= k < |head| ensures head[k] < n { assert head[k] in head; }
    order := head + [n];
    forall i: nat ensures i in order <==> i < |xs| && p(xs[i]) {
      assert i in order <==> i in head || i == n;
    }
  }

  // The elements that pass a test, by their positions.
  lemma WhereInOrder<T, U>(xs: seq<T>, p: T -> bool, f: T -> U) returns (order: seq<nat>)
    ensures Ascending(order) && forall i: nat :: i in order <==> i < |xs| && p(xs[i])
    ensures |Each(Where(xs, p), f)| == |order|
    ensures forall k :: 0 <= k < |order| ==> order[k] < |xs| && Each(Where(xs, p), f)[k] == f(xs[order[k]])
  {
    order := CollectInOrder(xs, p, x => x, Keep(p));
  }

  lemma {:induction false} CollectNothing<T, U>(xs: seq<T>, f: T -> seq<U>)
    requires forall x <- xs :: f(x) == []
    ensures Collect(xs, f) == []
    decreases |xs|
  {
    if xs != [] {
      CollectNothing(xs[..|xs| - 1], f);
      assert xs[|xs| - 1] in xs;
    }
  }
}
