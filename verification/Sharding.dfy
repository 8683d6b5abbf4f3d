// How a broadcast job is split over the pool's workers, and what a full buffer does to a send.
module Sharding {

  /** A non-blocking send on a buffered channel: the value is dropped when the buffer is full. */
  function Offer<T>(buffer: seq<T>, x: T, capacity: nat): (r: seq<T>)
    ensures |buffer| <= capacity ==> |r| <= capacity
    ensures buffer <= r
  {
    if |buffer| < capacity then buffer + [x] else buffer
  }

  /** Offering a whole list, in order. */
  function OfferAll<T>(buffer: seq<T>, xs: seq<T>, capacity: nat): seq<T>
    decreases |xs|
  {
    if xs == [] then buffer else OfferAll(Offer(buffer, xs[0], capacity), xs[1..], capacity)
  }

  // Offering a list keeps exactly the longest prefix that fits.
  lemma {:induction false} OfferAllKeepsPrefix<T>(buffer: seq<T>, xs: seq<T>, capacity: nat)
    requires |buffer| <= capacity
    ensures OfferAll(buffer, xs, capacity) == buffer + xs[..Min(|xs|, capacity - |buffer|)]
    decreases |xs|
  {
    if xs != [] {
      OfferAllKeepsPrefix(Offer(buffer, xs[0], capacity), xs[1..], capacity);
      if |buffer| < capacity {
        var m := Min(|xs| - 1, capacity - |buffer| - 1);
        assert xs[..m + 1] == [xs[0]] + xs[1..][..m];
      } else {
        assert xs[..0] == [] && xs[1..][..0] == [];
      }
    }
  }

  lemma {:induction false} OfferAllAppend<T>(buffer: seq<T>, xs: seq<T>, ys: seq<T>, capacity: nat)
    ensures OfferAll(buffer, xs + ys, capacity) == OfferAll(OfferAll(buffer, xs, capacity), ys, capacity)
    decreases |xs|
  {
    if xs == [] {
      assert xs + ys == ys;
    } else {
      assert (xs + ys)[1..] == xs[1..] + ys;
      OfferAllAppend(Offer(buffer, xs[0], capacity), xs[1..], ys, capacity);
    }
  }

  function Min(a: int, b: int): int { if a < b then a else b }

  function Max(a: int, b: int): int { if a < b then b else a }

  /** Shard size: the client count divided by the worker count, rounded up, and at least one. */
  function ChunkSize(clients: nat, workers: nat): nat
    requires workers > 0
  {
    Max((clients + workers - 1) / workers, 1)
  }

  // The shards cover every client within the first `workers` shards, and no smaller shard size would.
  lemma ChunkSizeIsCeiling(clients: nat, workers: nat)
    requires workers > 0
    ensures clients <= workers * ChunkSize(clients, workers)
    ensures clients > 0 ==> workers * (ChunkSize(clients, workers) - 1) < clients
  {
    var q := (clients + workers - 1) / workers;
    assert clients + workers - 1 == q * workers + (clients + workers - 1) % workers;
    assert q * workers == workers * q;
    assert workers * (q - 1) == workers * q - workers;
    if q < 1 { assert workers * q <= 0; }
  }

  /** The consecutive shards that the submit loop cuts, `chunk` clients at a time. */
  function Chunks<C>(clients: seq<C>, chunk: nat): (r: seq<seq<C>>)
    requires chunk > 0
    decreases |clients|
  {
    if clients == [] then []
    else [clients[..Min(chunk, |clients|)]] + Chunks(clients[Min(chunk, |clients|)..], chunk)
  }

  function Concat<C>(parts: seq<seq<C>>): seq<C> {
    if parts == [] then [] else parts[0] + Concat(parts[1..])
  }

  // Sharding loses and repeats nothing: the shards in order are the client list again.
  lemma {:induction false} ChunksConcatenateBack<C>(clients: seq<C>, chunk: nat)
    requires chunk > 0
    ensures Concat(Chunks(clients, chunk)) == clients
    ensures forall part <- Chunks(clients, chunk) :: 0 < |part| <= chunk
    decreases |clients|
  {
    if clients != [] {
      var m := Min(chunk, |clients|);
      ChunksConcatenateBack(clients[m..], chunk);
      assert Chunks(clients, chunk)[1..] == Chunks(clients[m..], chunk);
      assert clients == clients[..m] + clients[m..];
    }
  }

  // Shard k is the slice of the client list that starts at k * chunk.
  lemma {:induction false} ChunkAt<C>(clients: seq<C>, chunk: nat, k: nat)
    requires chunk > 0 && k < |Chunks(clients, chunk)|
    ensures 0 <= k * chunk < |clients|
    ensures Chunks(clients, chunk)[k] == clients[k * chunk..Min(k * chunk + chunk, |clients|)]
    decreases k
  {
    var m := Min(chunk, |clients|);
    if k > 0 {
      assert Chunks(clients, chunk)[k] == Chunks(clients[m..], chunk)[k - 1];
      ChunkAt(clients[m..], chunk, k - 1);
      SliceOfRest(clients, chunk, (k - 1) * chunk);
      assert (k - 1) * chunk + chunk == k * chunk;
    }
  }

  lemma SliceOfRest<C>(clients: seq<C>, chunk: nat, from: nat)
    requires chunk > 0 && from < |clients[Min(chunk, |clients|)..]|
    ensures from + chunk < |clients|
    ensures clients[Min(chunk, |clients|)..][from..Min(from + chunk, |clients[Min(chunk, |clients|)..]|)]
         == clients[from + chunk..Min(from + chunk + chunk, |clients|)]
  {}

  // The number of shards is the client count over the shard size, rounded up.
  lemma {:induction false} ChunkCount<C>(clients: seq<C>, chunk: nat)
    requires chunk > 0
    ensures |clients| <= |Chunks(clients, chunk)| * chunk < |clients| + chunk
    decreases |clients|
  {
    if clients != [] {
      var m := Min(chunk, |clients|);
      ChunkCount(clients[m..], chunk);
      var rest := |Chunks(clients[m..], chunk)|;
      assert (1 + rest) * chunk == chunk + rest * chunk;
      if m < chunk {
        assert clients[m..] == [];
      }
    }
  }

  lemma MulOrder(a: int, b: int, c: nat)
    requires a <= b
    ensures a * c <= b * c
  {
    assert (b - a) * c >= 0;
  }

  // There are never more shards than workers, so every worker index of the submit loop is in range.
  lemma ShardsFitWorkers<C>(clients: seq<C>, workers: nat)
    requires workers > 0
    ensures |Chunks(clients, ChunkSize(|clients|, workers))| <= workers
  {
    var chunk := ChunkSize(|clients|, workers);
    ChunkCount(clients, chunk);
    ChunkSizeIsCeiling(|clients|, workers);
    FewEnough(|Chunks(clients, chunk)|, workers, chunk, |clients|);
  }

  lemma FewEnough(shards: nat, workers: nat, chunk: nat, n: nat)
    requires shards * chunk < n + chunk && n <= workers * chunk && chunk > 0
    ensures shards <= workers
  {
    assert shards * chunk == (shards - 1) * chunk + chunk;
    if shards > workers { MulOrder(workers, shards - 1, chunk); }
  }

  predicate NoDuplicates<C(==)>(xs: seq<C>) {
    forall i, j :: 0 <= i < j < |xs| ==> xs[i] != xs[j]
  }

  // A shard holds only clients of the list.
  lemma ShardsHoldOnlyClients<C>(clients: seq<C>, chunk: nat, client: C)
    requires chunk > 0 && client !in clients
    ensures forall part <- Chunks(clients, chunk) :: client !in part
  {
    forall part | part in Chunks(clients, chunk)
      ensures client !in part
    {
      var k :| 0 <= k < |Chunks(clients, chunk)| && Chunks(clients, chunk)[k] == part;
      ChunkAt(clients, chunk, k);
    }
  }

  // Every client sits in exactly one shard.
  lemma {:induction false} EachClientInOneShard<C>(clients: seq<C>, chunk: nat, client: C) returns (k: nat)
    requires chunk > 0 && NoDuplicates(clients) && client in clients
    ensures k < |Chunks(clients, chunk)|
    ensures forall j: nat :: j < |Chunks(clients, chunk)| ==> (client in Chunks(clients, chunk)[j] <==> j == k)
    decreases |clients|
  {
    var shards := Chunks(clients, chunk);
    var m := Min(chunk, |clients|);
    var rest := Chunks(clients[m..], chunk);
    assert clients == clients[..m] + clients[m..];
    if client in clients[..m] {
      k := 0;
      ShardsHoldOnlyClients(clients[m..], chunk, client);
      assert forall j: nat :: 0 < j < |shards| ==> shards[j] == rest[j - 1] && rest[j - 1] in rest;
    } else {
      k := EachClientInOneShard(clients[m..], chunk, client);
      k := k + 1;
      assert forall j: nat :: 0 < j < |shards| ==> shards[j] == rest[j - 1];
    }
  }

  /** One unit of work for a pool worker. */
  datatype Job<M, C> = Job(message: M, clients: seq<C>)

  /** What running through one client list sends to client c. */
  function MessagesInJob<M, C(==)>(message: M, clients: seq<C>, c: C): seq<M> {
    if clients == [] then []
    else MessagesInJob(message, clients[..|clients| - 1], c) + (if clients[|clients| - 1] == c then [message] else [])
  }

  /** What running through a queue of jobs sends to client c. */
  function MessagesFor<M, C(==)>(jobs: seq<Job<M, C>>, c: C): seq<M> {
    if jobs == [] then []
    else MessagesFor(jobs[..|jobs| - 1], c) + MessagesInJob(jobs[|jobs| - 1].message, jobs[|jobs| - 1].clients, c)
  }

  lemma {:induction false} MessagesForAppend<M, C>(a: seq<Job<M, C>>, b: seq<Job<M, C>>, c: C)
    ensures MessagesFor(a + b, c) == MessagesFor(a, c) + MessagesFor(b, c)
    decreases |b|
  {
    if b == [] {
      assert a + b == a;
    } else {
      var head, last := b[..|b| - 1], b[|b| - 1];
      MessagesForAppend(a, head, c);
      MessagesForLast(a + head, last, c);
      MessagesForLast(head, last, c);
      assert b == head + [last] && a + b == (a + head) + [last];
    }
  }

  lemma MessagesForLast<M, C>(jobs: seq<Job<M, C>>, job: Job<M, C>, c: C)
    ensures MessagesFor(jobs + [job], c) == MessagesFor(jobs, c) + MessagesInJob(job.message, job.clients, c)
  {
    assert (jobs + [job])[..|jobs|] == jobs;
  }

  lemma {:induction false} MessagesInJobFront<M, C>(message: M, clients: seq<C>, c: C)
    requires clients != []
    ensures MessagesInJob(message, clients, c)
            == (if clients[0] == c then [message] else []) + MessagesInJob(message, clients[1..], c)
    decreases |clients|
  {
    var n := |clients| - 1;
    if n > 0 {
      MessagesInJobFront(message, clients[..n], c);
      assert clients[1..][..n - 1] == clients[..n][1..];
    }
  }

  const WORKER_BUFFER: nat := 16
  const SEND_BUFFER: nat := 256
  const POOL_THRESHOLD: nat := 10
  const WORKER_COUNT: nat := 10

  /** The worker queues after a submit: worker k is offered shard k, if there is one. */
  function SubmitAll<M, C>(queues: seq<seq<Job<M, C>>>, job: Job<M, C>): (r: seq<seq<Job<M, C>>>)
    requires |queues| > 0
  {
    var shards := Chunks(job.clients, ChunkSize(|job.clients|, |queues|));
    seq(|queues|, k requires 0 <= k < |queues| =>
      if k < |shards| then Offer(queues[k], Job(job.message, shards[k]), WORKER_BUFFER) else queues[k])
  }

  // What a submit leaves, without shards: for the least size that lets the workers cover the clients, worker k gets the
  // slice of the client list that starts at k times that size, unless there is none or it holds 16 jobs already.
  lemma SubmitInFull<M, C>(queues: seq<seq<Job<M, C>>>, job: Job<M, C>) returns (size: nat)
    requires |queues| > 0
    ensures size >= 1 && |job.clients| <= |queues| * size && (size > 1 ==> |queues| * (size - 1) < |job.clients|)
    ensures |SubmitAll(queues, job)| == |queues|
    ensures forall k :: 0 <= k < |queues| ==>
              SubmitAll(queues, job)[k]
              == if k * size < |job.clients| && |queues[k]| < 16
                 then queues[k] + [Job(job.message, job.clients[k * size..Min(k * size + size, |job.clients|)])]
                 else queues[k]
  {
    size := ChunkSize(|job.clients|, |queues|);
    ChunkSizeIsCeiling(|job.clients|, |queues|);
    var shards := Chunks(job.clients, size);
    forall k | 0 <= k < |queues|
      ensures k < |shards| <==> k * size < |job.clients|
      ensures k < |shards| ==> shards[k] == job.clients[k * size..Min(k * size + size, |job.clients|)]
    {
      ShardOrNone(job.clients, size, k);
    }
  }

  lemma ShardOrNone<C>(clients: seq<C>, size: nat, k: nat)
    requires size > 0
    ensures k < |Chunks(clients, size)| <==> k * size < |clients|
    ensures k < |Chunks(clients, size)| ==>
              0 <= k * size && Chunks(clients, size)[k] == clients[k * size..Min(k * size + size, |clients|)]
  {
    ChunkCount(clients, size);
    if k < |Chunks(clients, size)| { ChunkAt(clients, size, k); } else { MulOrder(|Chunks(clients, size)|, k, size); }
  }
}
