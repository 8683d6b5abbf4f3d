// The hub package's objects as the code has them. Each method is one uninterrupted run of its goroutine; RoomProtocol
// is what happens when such runs interleave.
module HubClasses {
  import opened Basics
  import opened Sharding

  type Bytes = seq<bv8>

  class Client {
    const userID: Uuid
    const roomID: Uuid
    const username: string
    var send: seq<Bytes>   // what the buffered channel holds
    var closed: bool

    constructor (userID: Uuid, roomID: Uuid, username: string)
      ensures this.userID == userID && this.roomID == roomID && this.username == username
      ensures send == [] && !closed
    {
      this.userID, this.roomID, this.username := userID, roomID, username;
      send, closed := [], false;
    }

    // Sending on a closed channel panics, so the channel has to be open.
    method SendRaw(msg: Bytes)
      requires !closed
      modifies this`send
      ensures send == Offer(old(send), msg, SEND_BUFFER)
    {
      if |send| < SEND_BUFFER {
        send := send + [msg];
      }
    }
  }

  function ClientsOf(jobs: seq<Job<Bytes, Client>>): set<Client> {
    set j, i | 0 <= j < |jobs| && 0 <= i < |jobs[j].clients| :: jobs[j].clients[i]
  }

  function AllJobs(queues: seq<seq<Job<Bytes, Client>>>): seq<Job<Bytes, Client>> {
    if queues == [] then [] else AllJobs(queues[..|queues| - 1]) + queues[|queues| - 1]
  }

  // ---- what delivering queued jobs means ----

  /** The place of a client in the queues: at i in the list of worker k's j-th job. */
  datatype Spot = Spot(k: nat, j: nat, i: nat)

  predicate Names(queues: seq<seq<Job<Bytes, Client>>>, c: Client, at: Spot) {
    at.k < |queues| && at.j < |queues[at.k]| && at.i < |queues[at.k][at.j].clients|
        && queues[at.k][at.j].clients[at.i] == c
  }

  predicate Before(a: Spot, b: Spot) { a.j < b.j || (a.j == b.j && a.i < b.i) }

  /** The spots that name c, each once, and those of one worker in the order of its jobs and of their lists. */
  ghost predicate ListsSpots(queues: seq<seq<Job<Bytes, Client>>>, c: Client, spots: seq<Spot>) {
    && (forall at: Spot :: at in spots <==> Names(queues, c, at))
    && (forall p, q :: 0 <= p < q < |spots| ==>
         spots[p] != spots[q] && (spots[p].k == spots[q].k ==> Before(spots[p], spots[q])))
  }

  /** A buffer keeps what it holds and gains the messages of the spots, in their order, as far as 256 items go. */
  predicate Gains(queues: seq<seq<Job<Bytes, Client>>>, spots: seq<Spot>, before: seq<Bytes>, after: seq<Bytes>) {
    && |after| == (if |before| + |spots| <= 256 then |before| + |spots| else 256)
    && before <= after
    && forall p :: |before| <= p < |after| ==>
         var at := spots[p - |before|];
         at.k < |queues| && at.j < |queues[at.k]| && after[p] == queues[at.k][at.j].message
  }

  /** c's buffer gains the message of every spot that names c. */
  ghost predicate Delivered(queues: seq<seq<Job<Bytes, Client>>>, c: Client, before: seq<Bytes>, after: seq<Bytes>)
    requires |before| <= 256
  {
    exists spots: seq<Spot> :: ListsSpots(queues, c, spots) && Gains(queues, spots, before, after)
  }

  function JobSpots(clients: seq<Client>, c: Client, k: nat, j: nat): (r: seq<Spot>)
    ensures forall p :: 0 <= p < |r| ==> r[p].k == k && r[p].j == j && r[p].i < |clients| && clients[r[p].i] == c
    ensures forall p, q :: 0 <= p < q < |r| ==> r[p].i < r[q].i
  {
    if clients == [] then []
    else
      var n := |clients| - 1;
      var head := JobSpots(clients[..n], c, k, j);
      if clients[n] == c then head + [Spot(k, j, n)] else head
  }

  function QueueSpots(jobs: seq<Job<Bytes, Client>>, c: Client, k: nat): (r: seq<Spot>)
    ensures forall p :: 0 <= p < |r| ==>
            r[p].k == k && r[p].j < |jobs| && r[p].i < |jobs[r[p].j].clients| && jobs[r[p].j].clients[r[p].i] == c
    ensures forall p, q :: 0 <= p < q < |r| ==> Before(r[p], r[q])
  {
    if jobs == [] then []
    else var n := |jobs| - 1; QueueSpots(jobs[..n], c, k) + JobSpots(jobs[n].clients, c, k, n)
  }

  function SpotsOf(queues: seq<seq<Job<Bytes, Client>>>, c: Client): seq<Spot> {
    if queues == [] then []
    else var n := |queues| - 1; SpotsOf(queues[..n], c) + QueueSpots(queues[n], c, n)
  }

  lemma {:induction false} JobSpotsHold(clients: seq<Client>, c: Client, k: nat, j: nat, i: nat)
    requires i < |clients| && clients[i] == c
    ensures Spot(k, j, i) in JobSpots(clients, c, k, j)
    decreases |clients|
  {
    if i < |clients| - 1 { JobSpotsHold(clients[..|clients| - 1], c, k, j, i); }
  }

  lemma {:induction false} JobSpotsSend(message: Bytes, clients: seq<Client>, c: Client, k: nat, j: nat)
    ensures var sent := MessagesInJob(message, clients, c);
            |sent| == |JobSpots(clients, c, k, j)| && forall p :: 0 <= p < |sent| ==> sent[p] == message
    decreases |clients|
  {
    if clients != [] { JobSpotsSend(message, clients[..|clients| - 1], c, k, j); }
  }

  lemma {:induction false} QueueSpotsHold(jobs: seq<Job<Bytes, Client>>, c: Client, k: nat, j: nat, i: nat)
    requires j < |jobs| && i < |jobs[j].clients| && jobs[j].clients[i] == c
    ensures Spot(k, j, i) in QueueSpots(jobs, c, k)
    decreases |jobs|
  {
    var n := |jobs| - 1;
    if j < n { QueueSpotsHold(jobs[..n], c, k, j, i); } else { JobSpotsHold(jobs[n].clients, c, k, n, i); }
  }

  lemma {:induction false} QueueSpotsSend(jobs: seq<Job<Bytes, Client>>, c: Client, k: nat)
    ensures var spots, sent := QueueSpots(jobs, c, k), MessagesFor(jobs, c);
            |sent| == |spots| && forall p :: 0 <= p < |sent| ==> sent[p] == jobs[spots[p].j].message
    decreases |jobs|
  {
    if jobs != [] {
      var n := |jobs| - 1;
      QueueSpotsSend(jobs[..n], c, k);
      JobSpotsSend(jobs[n].message, jobs[n].clients, c, k, n);
    }
  }

  lemma {:induction false} SpotsList(queues: seq<seq<Job<Bytes, Client>>>, c: Client)
    ensures var spots, sent := SpotsOf(queues, c), MessagesFor(AllJobs(queues), c);
            && ListsSpots(queues, c, spots) && |sent| == |spots|
            && forall p :: 0 <= p < |sent| ==>
                 Names(queues, c, spots[p]) && sent[p] == queues[spots[p].k][spots[p].j].message
    decreases |queues|
  {
    if queues != [] {
      var n := |queues| - 1;
      SpotsList(queues[..n], c);
      QueueSpotsSend(queues[n], c, n);
      MessagesForAppend(AllJobs(queues[..n]), queues[n], c);
      var head, last := SpotsOf(queues[..n], c), QueueSpots(queues[n], c, n);
      forall p | 0 <= p < |head| ensures head[p].k < n { assert head[p] in head; }
      forall p | 0 <= p < |last| ensures last[p].k == n { assert last[p] in last; }
      forall at: Spot ensures at in head + last <==> Names(queues, c, at) {
        assert at in head <==> Names(queues[..n], c, at);
        if Names(queues, c, at) && at.k == n { QueueSpotsHold(queues[n], c, n, at.j, at.i); }
      }
    }
  }

  // Offering c the messages of all jobs delivers them.
  lemma DrainDelivers(queues: seq<seq<Job<Bytes, Client>>>, c: Client, before: seq<Bytes>, after: seq<Bytes>)
    requires |before| <= 256 && after == OfferAll(before, MessagesFor(AllJobs(queues), c), SEND_BUFFER)
    ensures Delivered(queues, c, before, after)
  {
    SpotsList(queues, c);
    var sent, spots := MessagesFor(AllJobs(queues), c), SpotsOf(queues, c);
    OfferAllKeepsPrefix(before, sent, SEND_BUFFER);
    ListedGains(queues, c, before, after, sent, spots);
  }

  lemma ListedGains(queues: seq<seq<Job<Bytes, Client>>>, c: Client, before: seq<Bytes>, after: seq<Bytes>,
      sent: seq<Bytes>, spots: seq<Spot>)
    requires |before| <= 256 && |sent| == |spots| && after == before + sent[..Min(|sent|, 256 - |before|)]
    requires forall p :: 0 <= p < |sent| ==>
               Names(queues, c, spots[p]) && sent[p] == queues[spots[p].k][spots[p].j].message
    ensures Gains(queues, spots, before, after)
  {}

  lemma OneQueueDelivers(jobs: seq<Job<Bytes, Client>>, c: Client, before: seq<Bytes>, after: seq<Bytes>)
    requires |before| <= 256 && after == OfferAll(before, MessagesFor(jobs, c), SEND_BUFFER)
    ensures Delivered([jobs], c, before, after)
  {
    assert [jobs][..0] == [] && AllJobs([jobs]) == [] + jobs == jobs;
    DrainDelivers([jobs], c, before, after);
  }

  lemma OneJobDelivers(job: Job<Bytes, Client>, c: Client, before: seq<Bytes>, after: seq<Bytes>)
    requires |before| <= 256 && after == OfferAll(before, MessagesInJob(job.message, job.clients, c), SEND_BUFFER)
    ensures Delivered([[job]], c, before, after)
  {
    OneJobMessages(job, c);
    OneQueueDelivers([job], c, before, after);
  }

  lemma OneJobMessages(job: Job<Bytes, Client>, c: Client)
    ensures MessagesFor([job], c) == MessagesInJob(job.message, job.clients, c)
  {
    MessagesForAppend([], [job], c);
    assert [job][..0] == [] && [] + [job] == [job];
  }

  // One more client of a job's list.
  lemma NextInJob(buffer: seq<Bytes>, job: Job<Bytes, Client>, i: nat, c: Client)
    requires i < |job.clients|
    ensures var sofar := OfferAll(buffer, MessagesInJob(job.message, job.clients[..i], c), SEND_BUFFER);
            OfferAll(buffer, MessagesInJob(job.message, job.clients[..i + 1], c), SEND_BUFFER)
            == if job.clients[i] == c then Offer(sofar, job.message, SEND_BUFFER) else sofar
  {
    var before := MessagesInJob(job.message, job.clients[..i], c);
    assert job.clients[..i + 1][..i] == job.clients[..i];
    OfferAllAppend(buffer, before, if job.clients[i] == c then [job.message] else [], SEND_BUFFER);
  }

  // One more job of a queue.
  lemma NextJob(buffer: seq<Bytes>, jobs: seq<Job<Bytes, Client>>, n: nat, c: Client)
    requires n < |jobs|
    ensures OfferAll(buffer, MessagesFor(jobs[..n + 1], c), SEND_BUFFER)
         == OfferAll(OfferAll(buffer, MessagesFor(jobs[..n], c), SEND_BUFFER),
             MessagesInJob(jobs[n].message, jobs[n].clients, c), SEND_BUFFER)
  {
    assert jobs[..n + 1][..n] == jobs[..n];
    OfferAllAppend(buffer, MessagesFor(jobs[..n], c), MessagesInJob(jobs[n].message, jobs[n].clients, c), SEND_BUFFER);
  }

  class BroadcastPool {
    const workers: array<seq<Job<Bytes, Client>>>   // what each worker's buffered channel holds
    const workerCount: nat
    var closed: bool

    ghost predicate Valid()
      reads this, workers
    {
      workers.Length == workerCount && forall k :: 0 <= k < workerCount ==> |workers[k]| <= WORKER_BUFFER
    }

    constructor (workerCount: nat)
      ensures Valid() && fresh(workers) && this.workerCount == workerCount && !closed
      ensures forall k :: 0 <= k < workerCount ==> workers[k] == []
    {
      workers := new seq<Job<Bytes, Client>>[workerCount];
      this.workerCount := workerCount;
      closed := false;
      new;
      for i := 0 to workerCount
        invariant !closed && forall k :: 0 <= k < i ==> workers[k] == []
      {
        workers[i] := [];
      }
    }

    // The submit loop leaves on every worker queue exactly its shard, or drops it where the queue is full.
    method Submit(job: Job<Bytes, Client>)
      requires Valid() && !closed && (job.clients != [] ==> workerCount > 0)
      modifies workers
      ensures Valid()
      ensures if workerCount > 0
              then workers[..] == SubmitAll(old(workers[..]), job) else workers[..] == old(workers[..])
    {
      if |job.clients| == 0 {
        assert workerCount > 0 ==> workers[..] == SubmitAll(old(workers[..]), job);
        return;
      }
      var n := |job.clients|;
      var chunkSize := Max((n + workerCount - 1) / workerCount, 1);
      ghost var was := workers[..];
      ghost var shards := Chunks(job.clients, chunkSize);
      ShardsFitWorkers(job.clients, workerCount);
      ChunkCount(job.clients, chunkSize);
      var i, workerIdx := 0, 0;
      while i < n
        invariant 0 <= workerIdx <= |shards| && i == workerIdx * chunkSize
        invariant forall k :: 0 <= k < workerIdx ==>
                  workers[k] == Offer(was[k], Job(job.message, shards[k]), WORKER_BUFFER)
        invariant forall k :: workerIdx <= k < workerCount ==> workers[k] == was[k]
        decreases n - i
      {
        if workerIdx == |shards| {
          assert false;
        }
        ChunkAt(job.clients, chunkSize, workerIdx);
        var end := Min(i + chunkSize, n);
        var sub := Job(job.message, job.clients[i..end]);
        if |workers[workerIdx]| < WORKER_BUFFER {
          workers[workerIdx] := workers[workerIdx] + [sub];
        }
        assert (workerIdx + 1) * chunkSize == i + chunkSize;
        i, workerIdx := i + chunkSize, workerIdx + 1;
      }
      ShardsDone(|shards|, workerIdx, chunkSize, n);
    }

    static lemma ShardsDone(shards: nat, workerIdx: nat, chunkSize: nat, n: nat)
      requires shards * chunkSize < n + chunkSize && n <= workerIdx * chunkSize && chunkSize > 0
      ensures shards <= workerIdx
    {
      assert shards * chunkSize == (shards - 1) * chunkSize + chunkSize;
      if shards > workerIdx { MulOrder(workerIdx, shards - 1, chunkSize); }
    }

    // One job: every client on its list is offered the message.
    static method RunJob(job: Job<Bytes, Client>, ghost cs: set<Client>)
      requires forall i :: 0 <= i < |job.clients| ==> job.clients[i] in cs
      requires forall c <- cs :: !c.closed
      modifies cs`send
      ensures forall c <- cs :: c.send == OfferAll(old(c.send), MessagesInJob(job.message, job.clients, c), SEND_BUFFER)
      ensures forall c <- cs :: |old(c.send)| <= 256 ==> Delivered([[job]], c, old(c.send), c.send)
    {
      for i := 0 to |job.clients|
        invariant forall c <- cs ::
                  c.send == OfferAll(old(c.send), MessagesInJob(job.message, job.clients[..i], c), SEND_BUFFER)
      {
        var client := job.clients[i];
        ghost var before := map c | c in cs :: c.send;
        client.SendRaw(job.message);
        forall c | c in cs
          ensures c.send == OfferAll(old(c.send), MessagesInJob(job.message, job.clients[..i + 1], c), SEND_BUFFER)
        {
          NextInJob(old(c.send), job, i, c);
          assert c.send == if c == client then Offer(before[c], job.message, SEND_BUFFER) else before[c];
        }
      }
      assert job.clients[..|job.clients|] == job.clients;
      forall c | c in cs && |old(c.send)| <= 256 ensures Delivered([[job]], c, old(c.send), c.send) {
        OneJobDelivers(job, c, old(c.send), c.send);
      }
    }

    static lemma JobClients(jobs: seq<Job<Bytes, Client>>)
      requires jobs != []
      ensures forall i :: 0 <= i < |jobs[0].clients| ==> jobs[0].clients[i] in ClientsOf(jobs)
      ensures ClientsOf(jobs[1..]) <= ClientsOf(jobs)
    {}

    // One turn of the worker's loop: the next job leaves the channel and is delivered.
    method NextJobOf(k: nat, ghost cs: set<Client>)
      requires Valid() && k < workerCount && workers[k] != []
      requires ClientsOf(workers[k]) <= cs && forall c <- cs :: !c.closed
      modifies workers, cs`send
      ensures Valid() && workers[k] == old(workers[k])[1..] && ClientsOf(workers[k]) <= cs
              && forall j :: 0 <= j < workerCount && j != k ==> workers[j] == old(workers[j])
      ensures var job := old(workers[k])[0];
              forall c <- cs :: c.send == OfferAll(old(c.send), MessagesInJob(job.message, job.clients, c), SEND_BUFFER)
    {
      JobClients(workers[k]);
      var job := workers[k][0];
      workers[k] := workers[k][1..];
      RunJob(job, cs);
    }

    // A worker on a channel that gets no more jobs: it empties the channel and delivers every job in order.
    method Worker(k: nat, ghost cs: set<Client>)
      requires Valid() && k < workerCount
      requires ClientsOf(workers[k]) <= cs && forall c <- cs :: !c.closed
      modifies workers, cs`send
      ensures Valid() && workers[k] == []
              && forall j :: 0 <= j < workerCount && j != k ==> workers[j] == old(workers[j])
      ensures forall c <- cs :: c.send == OfferAll(old(c.send), MessagesFor(old(workers[k]), c), SEND_BUFFER)
      ensures forall c <- cs :: |old(c.send)| <= 256 ==> Delivered([old(workers[k])], c, old(c.send), c.send)
    {
      ghost var was := workers[k];
      ghost var done := 0;
      assert was[..0] == [];
      while workers[k] != []
        invariant Valid() && 0 <= done <= |was| && workers[k] == was[done..] && ClientsOf(workers[k]) <= cs
        invariant forall j :: 0 <= j < workerCount && j != k ==> workers[j] == old(workers[j])
        invariant forall c <- cs :: c.send == OfferAll(old(c.send), MessagesFor(was[..done], c), SEND_BUFFER)
        decreases |workers[k]|
      {
        assert workers[k][0] == was[done] && workers[k][1..] == was[done + 1..];
        NextJobOf(k, cs);
        forall c | c in cs
          ensures c.send == OfferAll(old(c.send), MessagesFor(was[..done + 1], c), SEND_BUFFER)
        {
          NextJob(old(c.send), was, done, c);
        }
        done := done + 1;
      }
      assert was[..done] == was;
      forall c | c in cs && |old(c.send)| <= 256 ensures Delivered([was], c, old(c.send), c.send) {
        OneQueueDelivers(was, c, old(c.send), c.send);
      }
    }

    // Shutdown closes every channel and returns when the workers have delivered every job that was queued.
    method Shutdown(ghost cs: set<Client>)
      requires Valid() && !closed && (forall c <- cs :: !c.closed)
      requires forall k :: 0 <= k < workerCount ==> ClientsOf(workers[k]) <= cs
      modifies this`closed, workers, cs`send
      ensures Valid() && closed && forall k :: 0 <= k < workerCount ==> workers[k] == []
      ensures forall c <- cs :: c.send == OfferAll(old(c.send), MessagesFor(AllJobs(old(workers[..])), c), SEND_BUFFER)
      ensures forall c <- cs :: |old(c.send)| <= 256 ==> Delivered(old(workers[..]), c, old(c.send), c.send)
    {
      closed := true;
      ghost var was := workers[..];
      for k := 0 to workerCount
        invariant Valid() && closed
        invariant forall j :: 0 <= j < k ==> workers[j] == []
        invariant forall j :: k <= j < workerCount ==> workers[j] == was[j]
        invariant forall c <- cs :: c.send == OfferAll(old(c.send), MessagesFor(AllJobs(was[..k]), c), SEND_BUFFER)
      {
        Worker(k, cs);
        assert was[..k + 1][..k] == was[..k];
        forall c | c in cs
          ensures c.send == OfferAll(old(c.send), MessagesFor(AllJobs(was[..k + 1]), c), SEND_BUFFER)
        {
          MessagesForAppend(AllJobs(was[..k]), was[k], c);
          OfferAllAppend(old(c.send), MessagesFor(AllJobs(was[..k]), c), MessagesFor(was[k], c), SEND_BUFFER);
        }
      }
      assert was[..workerCount] == was;
      forall c | c in cs && |old(c.send)| <= 256 ensures Delivered(was, c, old(c.send), c.send) {
        DrainDelivers(was, c, old(c.send), c.send);
      }
    }
  }

  class Room {
    var id: Uuid
    var clients: set<Client>
    var broadcastPool: BroadcastPool?

    ghost predicate Valid()
      reads this, broadcastPool, if broadcastPool == null then {} else {broadcastPool.workers}
    {
      broadcastPool != null ==> broadcastPool.Valid() && broadcastPool.workerCount == WORKER_COUNT
    }

    constructor (id: Uuid)
      ensures Valid() && this.id == id && clients == {} && broadcastPool == null
    {
      this.id, clients, broadcastPool := id, {}, null;
    }

    // A room at or over the threshold has a pool after Add; one that had a pool keeps it.
    method Add(c: Client)
      requires Valid()
      modifies this`clients, this`broadcastPool
      ensures Valid() && clients == old(clients) + {c}
      ensures old(broadcastPool) != null ==> broadcastPool == old(broadcastPool)
      ensures old(broadcastPool) == null ==> (broadcastPool != null <==> |clients| >= POOL_THRESHOLD)
      ensures broadcastPool != old(broadcastPool) ==>
              fresh(broadcastPool) && fresh(broadcastPool.workers) && !broadcastPool.closed
      ensures broadcastPool != old(broadcastPool) ==>
              forall k :: 0 <= k < WORKER_COUNT ==> broadcastPool.workers[k] == []
    {
      clients := clients + {c};
      var clientCount := |clients|;
      if clientCount >= POOL_THRESHOLD && broadcastPool == null {
        ActivatePool();
      }
    }

    method ActivatePool()
      requires Valid()
      modifies this`broadcastPool
      ensures Valid() && broadcastPool != null
      ensures old(broadcastPool) != null ==> broadcastPool == old(broadcastPool)
      ensures old(broadcastPool) == null ==>
              fresh(broadcastPool) && fresh(broadcastPool.workers) && !broadcastPool.closed
      ensures old(broadcastPool) == null ==> forall k :: 0 <= k < WORKER_COUNT ==> broadcastPool.workers[k] == []
    {
      if broadcastPool != null {
        return;
      }
      broadcastPool := new BroadcastPool(WORKER_COUNT);
    }

    // Closing a channel twice panics, so it has to be open.
    method Remove(c: Client)
      requires Valid() && !c.closed
      modifies this`clients, c`closed
      ensures Valid() && clients == old(clients) - {c} && c.closed
    {
      clients := clients - {c};
      c.closed := true;
    }

    // The snapshot loop: every member but the sender, once each, in whatever order the map gives.
    method Snapshot(sender: Client) returns (snapshot: seq<Client>)
      ensures NoDuplicates(snapshot) && forall d :: d in snapshot <==> d in clients && d != sender
    {
      snapshot := [];
      var left := clients;
      while left != {}
        invariant left <= clients && NoDuplicates(snapshot)
        invariant forall d :: d in snapshot <==> d in clients - left && d != sender
        decreases left
      {
        var client :| client in left;
        left := left - {client};
        if client != sender {
          assert client !in snapshot;
          snapshot := snapshot + [client];
        }
      }
    }

    // Broadcast offers the message to every other member, itself or through the pool's queues, and to nobody else.
    method Broadcast(msg: Bytes, sender: Client) returns (ghost snapshot: seq<Client>)
      requires Valid() && (broadcastPool == null ==> forall d <- clients :: d != sender ==> !d.closed)
      requires broadcastPool != null ==> !broadcastPool.closed
      modifies clients`send, if broadcastPool == null then {} else {broadcastPool.workers}
      ensures Valid() && NoDuplicates(snapshot) && forall d :: d in snapshot <==> d in clients && d != sender
      ensures broadcastPool == null ==>
                forall d <- clients :: d.send == if d != sender
                    then Offer(old(d.send), msg, SEND_BUFFER) else old(d.send)
      ensures broadcastPool != null ==>
                (forall d <- clients :: d.send == old(d.send))
                && broadcastPool.workers[..] == SubmitAll(old(broadcastPool.workers[..]), Job(msg, snapshot))
    {
      var clientSnapshot := Snapshot(sender);
      snapshot := clientSnapshot;
      if broadcastPool == null {
        for i := 0 to |clientSnapshot|
          invariant forall d <- clients ::
                    d.send == if d in clientSnapshot[..i] then Offer(old(d.send), msg, SEND_BUFFER) else old(d.send)
        {
          var client := clientSnapshot[i];
          assert client !in clientSnapshot[..i] && clientSnapshot[..i + 1] == clientSnapshot[..i] + [client];
          client.SendRaw(msg);
        }
        assert clientSnapshot[..|clientSnapshot|] == clientSnapshot;
        return;
      }
      broadcastPool.Submit(Job(msg, clientSnapshot));
    }

    method Shutdown(ghost cs: set<Client>)
      requires Valid() && (forall c <- cs :: !c.closed)
      requires broadcastPool != null ==>
               !broadcastPool.closed && forall k :: 0 <= k < WORKER_COUNT ==> ClientsOf(broadcastPool.workers[k]) <= cs
      modifies broadcastPool, if broadcastPool == null then {} else {broadcastPool.workers}, cs`send
      ensures Valid()
      ensures broadcastPool == null ==> forall c <- cs :: c.send == old(c.send)
      ensures broadcastPool != null ==>
                && broadcastPool.closed && (forall k :: 0 <= k < WORKER_COUNT ==> broadcastPool.workers[k] == [])
                && (forall c <- cs :: c.send
                     == OfferAll(old(c.send), MessagesFor(AllJobs(old(broadcastPool.workers[..])), c), SEND_BUFFER))
                && forall c <- cs :: |old(c.send)| <= 256 ==>
                     Delivered(old(broadcastPool.workers[..]), c, old(c.send), c.send)
    {
      if broadcastPool != null {
        broadcastPool.Shutdown(cs);
      }
    }
  }
}
