// The limiter's objects as the code has them. Each method is one request's uninterrupted run; the runs of RateLimit are
// what happens when requests interleave between the two cache calls.
module RateLimiterClasses {
  import opened Basics
  import opened RateLimit
  import RetryAfter

  /** The two calls the limiter makes of the cache. `ok` is false when the call is to fail, without effect. */
  class RedisCache {
    var data: Cache

    constructor ()
      ensures data == map[]
    {
      data := map[];
    }

    method Incr(t: int, key: Key, ok: bool) returns (count: nat)
      modifies this
      ensures ok ==> data == RateLimit.Incr(old(data), t, key) && count == data[key].count
      ensures !ok ==> data == old(data)
    {
      count := 0;
      if ok {
        if key in data && (data[key].expiry.Some? ==> t < data[key].expiry.value) {
          count := data[key].count + 1;
          data := data[key := data[key].(count := count)];
        } else {
          count := 1;
          data := data[key := Entry(1, None)];
        }
      }
    }

    method Expire(t: int, key: Key, ttl: int, ok: bool)
      modifies this
      ensures data == if ok then RateLimit.Expire(old(data), t, key, ttl) else old(data)
    {
      if ok && key in data && (data[key].expiry.Some? ==> t < data[key].expiry.value) {
        if ttl <= 0 {
          data := data - {key};
        } else {
          data := data[key := data[key].(expiry := Some(t + ttl))];
        }
      }
    }
  }

  /** When the two cache calls of a check arrive, and which of them go through. */
  datatype Calls = Calls(incrAt: int, expireAt: int, incrOk: bool, expireOk: bool)

  /** The calls that a check of key makes on a cache that nobody else touches meanwhile. */
  function CheckTrace(data: Cache, key: Key, req: Req, calls: Calls): seq<Event> {
    [IncrCall(calls.incrAt, req, key, calls.incrOk)]
    + if calls.incrOk && Incr(data, calls.incrAt, key)[key].count == 1
        then [ExpireCall(calls.expireAt, req, key, calls.expireOk)] else []
  }

  /** What the machine of RateLimit makes of those calls: the outcome and the cache. */
  function Checked(cfg: Config, data: Cache, key: Key, calls: Calls): (r: (Outcome, Cache))
    requires calls.incrAt <= calls.expireAt
  {
    var s := State(data, map[], [], calls.incrAt, map[]);
    var trace := CheckTrace(data, key, 0, calls);
    CheckTraceDecides(cfg, s, key, 0, calls);
    (Run(cfg, s, trace).decisions[0].outcome, Run(cfg, s, trace).cache)
  }

  // The calls of one check are a legal run that ends in exactly one decision, and leave no request under way.
  lemma CheckTraceDecides(cfg: Config, s: State, key: Key, req: Req, calls: Calls)
    requires s.now <= calls.incrAt <= calls.expireAt && req !in s.inflight
    ensures var trace := CheckTrace(s.cache, key, req, calls);
            && Legal(cfg, s, trace)
            && Run(cfg, s, trace).inflight == s.inflight
            && |Run(cfg, s, trace).decisions| == |s.decisions| + 1
            && Run(cfg, s, trace).decisions[|s.decisions|].key == key
            && Run(cfg, s, trace).cache.Keys - {key} == s.cache.Keys - {key}
  {
    var e := IncrCall(calls.incrAt, req, key, calls.incrOk);
    var trace := CheckTrace(s.cache, key, req, calls);
    var s1 := Apply(cfg, s, e);
    if calls.incrOk && Incr(s.cache, calls.incrAt, key)[key].count == 1 {
      var x := ExpireCall(calls.expireAt, req, key, calls.expireOk);
      assert trace[1..] == [x] && [x][1..] == [];
      assert Legal(cfg, Apply(cfg, s1, x), []);
      assert Run(cfg, s1, [x]) == Run(cfg, Apply(cfg, s1, x), []);
    } else {
      assert trace[1..] == [];
      assert Legal(cfg, s1, []);
    }
  }

  // The atomic check of RetryAfter is this check with both calls going through at once.
  lemma AtomicCheckIsItsCalls(cfg: Config, s: State, t: int, key: Key)
    requires s.now <= t && s.inflight == map[]
    ensures var trace := CheckTrace(s.cache, key, 0, Calls(t, t, true, true));
            Legal(cfg, s, trace) && Run(cfg, s, trace) == RetryAfter.Check(cfg, s, t, key)
  {
    var trace := CheckTrace(s.cache, key, 0, Calls(t, t, true, true));
    CheckTraceDecides(cfg, s, key, 0, Calls(t, t, true, true));
    var s1 := Apply(cfg, s, trace[0]);
    assert Run(cfg, s, trace) == Run(cfg, s1, trace[1..]);
    if |trace| == 2 {
      assert trace[1..] == [trace[1]] && trace[1..][1..] == [];
    }
  }

  // One check in full, on a cache whose counters have counted something: a counter that is missing or past its expiry
  // starts again at one; a failed call is the check's failure; a first request sets the expiry windowSecs * 1000
  // milliseconds after its second call, unless the counter is dropped at once; nobody else's counter changes.
  lemma CheckedInFull(cfg: Config, data: Cache, key: Key, calls: Calls)
    requires calls.incrAt <= calls.expireAt && (key in data ==> data[key].count >= 1)
    ensures var (outcome, after) := Checked(cfg, data, key, calls);
            var live := key in data && (data[key].expiry.None? || calls.incrAt < data[key].expiry.value);
            var n := if live then data[key].count + 1 else 1;
            && outcome == (if !calls.incrOk || (!live && !calls.expireOk) then Failed
                           else if n <= cfg.maxReqs then Allowed else Limited)
            && (forall k :: k != key ==> (k in after <==> k in data) && (k in data ==> after[k] == data[k]))
            && (!calls.incrOk ==> after == data)
            && (calls.incrOk && live ==> after == data[key := Entry(n, data[key].expiry)])
            && (calls.incrOk && !live && !calls.expireOk ==> after == data[key := Entry(1, None)])
            && (calls.incrOk && !live && calls.expireOk && cfg.windowSecs > 0 ==>
                 after == data[key := Entry(1, Some(calls.expireAt + cfg.windowSecs * 1000))])
            && (calls.incrOk && !live && calls.expireOk && cfg.windowSecs <= 0 ==> key !in after)
  {
    var s := State(data, map[], [], calls.incrAt, map[]);
    var trace := CheckTrace(data, key, 0, calls);
    CheckTraceDecides(cfg, s, key, 0, calls);
    var s1 := Apply(cfg, s, trace[0]);
    assert Run(cfg, s, trace) == Run(cfg, s1, trace[1..]);
    if |trace| == 2 {
      assert trace[1..] == [trace[1]] && trace[1..][1..] == [];
      assert Run(cfg, s1, trace[1..]) == Apply(cfg, s1, trace[1]);
    }
  }

  datatype Response = Passed | InternalError | TooManyRequests(retryAfter: int)

  class RateLimiter {
    const cache: RedisCache
    const maxReqs: int
    const windowSecs: int

    constructor (cache: RedisCache, maxReqs: int, windowSecs: int)
      ensures this.cache == cache && this.maxReqs == maxReqs && this.windowSecs == windowSecs
    {
      this.cache, this.maxReqs, this.windowSecs := cache, maxReqs, windowSecs;
    }

    function Cfg(): Config { Config(maxReqs, windowSecs) }

    // One check does to the cache, and answers, what its calls do in the interleaving machine.
    method IsAllowed(key: Key, calls: Calls) returns (allowed: bool, failed: bool)
      requires calls.incrAt <= calls.expireAt
      modifies cache
      ensures (if failed then Failed else if allowed then Allowed else Limited, cache.data)
              == Checked(Cfg(), old(cache.data), key, calls)
      ensures failed ==> !allowed
    {
      ghost var s := State(cache.data, map[], [], calls.incrAt, map[]);
      ghost var trace := CheckTrace(cache.data, key, 0, calls);
      CheckTraceDecides(Cfg(), s, key, 0, calls);
      ghost var s1 := Apply(Cfg(), s, trace[0]);
      assert Run(Cfg(), s, trace) == Run(Cfg(), s1, trace[1..]);
      var count := cache.Incr(calls.incrAt, key, calls.incrOk);
      if !calls.incrOk {
        assert trace[1..] == [];
        return false, true;
      }
      if count == 1 {
        assert trace[1..] == [ExpireCall(calls.expireAt, 0, key, calls.expireOk)];
        assert trace[1..][1..] == [];
        assert Run(Cfg(), s1, trace[1..]) == Apply(Cfg(), s1, trace[1]);
        cache.Expire(calls.expireAt, key, windowSecs * 1000, calls.expireOk);
        if !calls.expireOk {
          return false, true;
        }
      } else {
        assert trace[1..] == [];
      }
      return count <= maxReqs, false;
    }

    // Only an admitted check, or a request without a user, reaches the next handler; a rejected one is told to wait for
    // a whole window.
    method Middleware(user: Option<Key>, calls: Calls) returns (response: Response)
      requires calls.incrAt <= calls.expireAt
      modifies cache
      ensures user.None? ==> response == Passed && cache.data == old(cache.data)
      ensures user.Some? ==>
                var (outcome, data) := Checked(Cfg(), old(cache.data), user.value, calls);
                && cache.data == data
                && (response == Passed <==> outcome == Allowed)
                && (response == TooManyRequests(windowSecs) <==> outcome == Limited)
                && (response == InternalError <==> outcome == Failed)
    {
      if user.None? {
        return Passed;
      }
      var allowed, failed := IsAllowed(user.value, calls);
      if failed {
        return InternalError;
      }
      if !allowed {
        return TooManyRequests(windowSecs);
      }
      return Passed;
    }
  }
}
