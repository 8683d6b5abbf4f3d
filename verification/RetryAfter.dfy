// What a rejected user may rely on, how sharp the sliding bound is, and what a failed expiry costs.
module RetryAfter {
  import opened Basics
  import opened RateLimit

  /** User u sends nothing: no counter call of u's. Calls already under way may still finish. */
  predicate Silent(trace: seq<Event>, u: Key) {
    forall i :: 0 <= i < |trace| ==> trace[i].IncrCall? ==> trace[i].key != u
  }

  lemma SilentStep(cfg: Config, s: State, e: Event, u: Key)
    requires cfg.windowSecs > 0 && Inv(cfg, s, u) && Enabled(s, e) && (e.IncrCall? ==> e.key != u)
    requires u in s.cache && s.cache[u].expiry.Some?
    ensures u in Apply(cfg, s, e).cache && Apply(cfg, s, e).cache[u] == s.cache[u]
  {
    if e.key == u { assert Pending(s, u); } else { OtherUser(cfg, s, e, u); }
  }

  lemma {:induction false} SilentRun(cfg: Config, s: State, trace: seq<Event>, u: Key)
    requires cfg.windowSecs > 0 && Inv(cfg, s, u) && Legal(cfg, s, trace) && Silent(trace, u)
    requires u in s.cache && s.cache[u].expiry.Some?
    ensures u in Run(cfg, s, trace).cache && Run(cfg, s, trace).cache[u] == s.cache[u]
    decreases |trace|
  {
    if trace != [] {
      SilentStep(cfg, s, trace[0], u);
      StepKeepsInv(cfg, s, trace[0], u);
      assert forall i :: 0 <= i < |trace[1..]| ==> trace[1..][i] == trace[i + 1];
      SilentRun(cfg, Apply(cfg, s, trace[0]), trace[1..], u);
    }
  }

  /** After any silence of a window from s on, u's counter is gone. */
  ghost predicate CounterGoneAfterWindow(cfg: Config, s: State, u: Key) {
    forall trace, t :: Legal(cfg, s, trace) && Silent(trace, u) && Run(cfg, s, trace).now <= t &&
                       s.now + cfg.windowSecs * 1000 <= t ==>
      !Live(Run(cfg, s, trace).cache, u, t)
  }

  // Waiting a window frees u's counter exactly when the counter's expiry is set when the wait begins: not while the
  // expiry call of the counter's first request is still under way, and never once that call has failed.
  lemma WaitingAWindowHelpsExactlyWhenExpirySet(cfg: Config, s: State, u: Key)
    requires cfg.windowSecs > 0 && Inv(cfg, s, u) && u in s.cache
    ensures s.cache[u].expiry.Some? <==> CounterGoneAfterWindow(cfg, s, u)
  {
    if s.cache[u].expiry.Some? {
      forall trace, t | Legal(cfg, s, trace) && Silent(trace, u) && Run(cfg, s, trace).now <= t
          && s.now + Window(cfg) <= t
        ensures !Live(Run(cfg, s, trace).cache, u, t)
      {
        SilentRun(cfg, s, trace, u);
      }
    } else {
      assert Legal(cfg, s, []) && Silent([], u) && Run(cfg, s, []) == s;
      assert Live(s.cache, u, s.now + Window(cfg));
    }
  }

  /** u's counter has no expiry, none is coming, and it has used up the limit. */
  predicate LockedOut(cfg: Config, s: State, u: Key) {
    u in s.cache && s.cache[u].expiry.None? && !Pending(s, u) && s.cache[u].count >= 1
        && s.cache[u].count >= cfg.maxReqs
  }

  lemma LockedOutStep(cfg: Config, s: State, e: Event, u: Key)
    requires LockedOut(cfg, s, u) && Enabled(s, e)
    ensures LockedOut(cfg, Apply(cfg, s, e), u) && s.decisions <= Apply(cfg, s, e).decisions
    ensures forall i :: |s.decisions| <= i < |Apply(cfg, s, e).decisions| && Apply(cfg, s, e).decisions[i].key == u ==>
              !Apply(cfg, s, e).decisions[i].outcome.Allowed?
  {
    var s' := Apply(cfg, s, e);
    assert e.ExpireCall? && e.key == u ==> Pending(s, u);
    if e.key != u { OtherUser(cfg, s, e, u); }
    assert Pending(s', u) ==> Pending(s, u);
  }

  // A failed expiry call locks its user out: once the counter has reached the limit, nothing is admitted ever again,
  // however long the user waits.
  lemma {:induction false} LockedOutForever(cfg: Config, s: State, trace: seq<Event>, u: Key)
    requires LockedOut(cfg, s, u) && Legal(cfg, s, trace)
    ensures s.decisions <= Run(cfg, s, trace).decisions
    ensures forall i :: |s.decisions| <= i < |Run(cfg, s, trace).decisions| &&
                        Run(cfg, s, trace).decisions[i].key == u ==>
              !Run(cfg, s, trace).decisions[i].outcome.Allowed?
    decreases |trace|
  {
    if trace != [] {
      LockedOutStep(cfg, s, trace[0], u);
      LockedOutForever(cfg, Apply(cfg, s, trace[0]), trace[1..], u);
    }
  }

  /** Some continuation admits a further request of u. */
  ghost predicate CanBeAdmitted(cfg: Config, s: State, u: Key) {
    exists trace, i :: Legal(cfg, s, trace) && |s.decisions| <= i < |Run(cfg, s, trace).decisions|
      && Run(cfg, s, trace).decisions[i].key == u && Run(cfg, s, trace).decisions[i].outcome.Allowed?
  }

  // There is always a request id that is not under way.
  lemma {:induction false} FreeID(ids: set<Req>) returns (r: Req)
    ensures forall x: Req :: x in ids ==> x < r
    decreases |ids|
  {
    r := 0;
    if ids != {} {
      var x: Req :| x in ids;
      var above := FreeID(ids - {x});
      r := if x < above then above else x + 1;
      assert forall y: Req :: y in ids ==> y == x || y in ids - {x};
    }
  }

  lemma RunFront(cfg: Config, s: State, e: Event, rest: seq<Event>)
    requires Enabled(s, e) && Legal(cfg, Apply(cfg, s, e), rest)
    ensures Legal(cfg, s, [e] + rest) && Run(cfg, s, [e] + rest) == Run(cfg, Apply(cfg, s, e), rest)
  {
    assert ([e] + rest)[1..] == rest;
  }

  // A step that admits u now.
  lemma AdmittedAtOnce(cfg: Config, s: State, u: Key, e: Event)
    requires Enabled(s, e) && |Apply(cfg, s, e).decisions| == |s.decisions| + 1
    requires var d := Apply(cfg, s, e).decisions[|s.decisions|]; d.key == u && d.outcome.Allowed?
    ensures CanBeAdmitted(cfg, s, u)
  {
    var s1 := Apply(cfg, s, e);
    RunFront(cfg, s, e, []);
    assert Run(cfg, s1, []) == s1 && Run(cfg, s, [e] + []) == s1;
  }

  // A new counter's first request is admitted once its expiry is set.
  lemma AdmittedOnceFresh(cfg: Config, s: State, u: Key, t: int, r: Req)
    requires cfg.maxReqs >= 1 && s.now <= t && r !in s.inflight && !Live(s.cache, u, t)
    ensures CanBeAdmitted(cfg, s, u)
  {
    var e0, e1 := IncrCall(t, r, u, true), ExpireCall(t, r, u, true);
    var s1 := Apply(cfg, s, e0);
    var s2 := Apply(cfg, s1, e1);
    RunFront(cfg, s1, e1, []);
    RunFront(cfg, s, e0, [e1] + []);
    assert Run(cfg, s2, []) == s2 && Run(cfg, s, [e0] + ([e1] + [])) == s2;
    assert s2.decisions[|s.decisions|].key == u;
  }

  // The lockout is exact: in every state of every run, some continuation admits the user again if and only if the user
  // is not locked out.
  lemma AdmittedAgainExactlyWhenNotLockedOut(cfg: Config, s: State, u: Key)
    requires cfg.windowSecs > 0 && cfg.maxReqs >= 1 && Inv(cfg, s, u)
    ensures CanBeAdmitted(cfg, s, u) <==> !LockedOut(cfg, s, u)
  {
    if LockedOut(cfg, s, u) {
      forall trace | Legal(cfg, s, trace)
        ensures forall i :: |s.decisions| <= i < |Run(cfg, s, trace).decisions| &&
                            Run(cfg, s, trace).decisions[i].key == u ==>
                  !Run(cfg, s, trace).decisions[i].outcome.Allowed?
      {
        LockedOutForever(cfg, s, trace, u);
      }
    } else {
      AdmittedWhenNotLockedOut(cfg, s, u);
    }
  }

  lemma AdmittedWhenNotLockedOut(cfg: Config, s: State, u: Key)
    requires cfg.windowSecs > 0 && cfg.maxReqs >= 1 && Inv(cfg, s, u) && !LockedOut(cfg, s, u)
    ensures CanBeAdmitted(cfg, s, u)
  {
    if Pending(s, u) {
      var r :| r in s.inflight && s.inflight[r] == u;
      AdmittedAtOnce(cfg, s, u, ExpireCall(s.now, r, u, true));
    } else {
      var r := FreeID(s.inflight.Keys);
      if u in s.cache && s.cache[u].expiry.None? {
        AdmittedAtOnce(cfg, s, u, IncrCall(s.now, r, u, true));
      } else {
        var waits := u in s.cache && s.now < s.cache[u].expiry.value;
        AdmittedOnceFresh(cfg, s, u, if waits then s.cache[u].expiry.value else s.now, r);
      }
    }
  }

  function Counts(first: Req, u: Key, k: nat): (r: seq<Event>)
    ensures |r| == k
    decreases k
  {
    if k == 0 then [] else [IncrCall(0, first, u, true)] + Counts(first + 1, u, k - 1)
  }

  // Further requests only count.
  lemma {:induction false} CountsKeepCounting(cfg: Config, s: State, u: Key, first: Req, k: nat)
    requires s.now == 0 && u in s.cache && s.cache[u].expiry.None? && s.cache[u].count >= 1 && s.inflight == map[]
    ensures Legal(cfg, s, Counts(first, u, k))
    ensures var s' := Run(cfg, s, Counts(first, u, k));
            u in s'.cache && s'.cache[u] == Entry(s.cache[u].count + k, None) && s'.inflight == map[]
    decreases k
  {
    if k > 0 {
      var e := IncrCall(0, first, u, true);
      assert Counts(first, u, k)[1..] == Counts(first + 1, u, k - 1);
      CountsKeepCounting(cfg, Apply(cfg, s, e), u, first + 1, k - 1);
    }
  }

  // The lockout is real for every positive limit: a user's first request is counted, its expiry call fails, and the
  // user's next maxReqs requests use up the limit.
  lemma FailedExpiryLocksOut(cfg: Config, u: Key) returns (trace: seq<Event>)
    requires cfg.maxReqs >= 1
    ensures trace == [IncrCall(0, 0, u, true), ExpireCall(0, 0, u, false)] + Counts(1, u, cfg.maxReqs)
    ensures Legal(cfg, START, trace) && LockedOut(cfg, Run(cfg, START, trace), u)
  {
    var e0, e1, more := IncrCall(0, 0, u, true), ExpireCall(0, 0, u, false), Counts(1, u, cfg.maxReqs);
    var s0 := Apply(cfg, START, e0);
    var s1 := Apply(cfg, s0, e1);
    assert s1.inflight == map[];
    CountsKeepCounting(cfg, s1, u, 1, cfg.maxReqs);
    trace := [e0, e1] + more;
    assert trace[1..] == [e1] + more && trace[1..][1..] == more;
  }

  // ---- checks that nothing interleaves with ----

  /** One whole check at time t: the counter call, and the expiry call if the counter is new. */
  function Check(cfg: Config, s: State, t: int, key: Key): State
    requires s.now <= t && s.inflight == map[]
  {
    var s1 := Apply(cfg, s, IncrCall(t, 0, key, true));
    if 0 in s1.inflight then Apply(cfg, s1, ExpireCall(t, 0, key, true)) else s1
  }

  /** Times do not go back. */
  predicate Timed(from: int, calls: seq<(int, Key)>)
    decreases |calls|
  {
    calls == [] || (from <= calls[0].0 && Timed(calls[0].0, calls[1..]))
  }

  function Checks(cfg: Config, s: State, calls: seq<(int, Key)>): (r: State)
    requires s.inflight == map[] && Timed(s.now, calls)
    ensures r.inflight == map[]
    decreases |calls|
  {
    if calls == [] then s
    else
      CheckEnds(cfg, s, calls[0].0, calls[0].1);
      Checks(cfg, Check(cfg, s, calls[0].0, calls[0].1), calls[1..])
  }

  lemma CheckEnds(cfg: Config, s: State, t: int, key: Key)
    requires s.now <= t && s.inflight == map[]
    ensures Check(cfg, s, t, key).inflight == map[] && Check(cfg, s, t, key).now == t
    ensures |Check(cfg, s, t, key).decisions| == |s.decisions| + 1
            && Check(cfg, s, t, key).decisions[..|s.decisions|] == s.decisions
    ensures var d := Check(cfg, s, t, key).decisions[|s.decisions|]; d.t == t && d.key == key
  {}

  /** Every counter has an expiry no later than a window from now. */
  predicate AllExpire(cfg: Config, s: State) {
    forall u :: u in s.cache ==> s.cache[u].expiry.Some? && s.cache[u].expiry.value <= s.now + Window(cfg)
  }

  lemma CheckExpires(cfg: Config, s: State, t: int, key: Key)
    requires cfg.windowSecs > 0 && s.now <= t && s.inflight == map[] && AllExpire(cfg, s)
    ensures AllExpire(cfg, Check(cfg, s, t, key))
    ensures forall u :: u != key ==>
            (u in Check(cfg, s, t, key).cache <==> u in s.cache)
                && (u in s.cache ==> Check(cfg, s, t, key).cache[u] == s.cache[u])
  {}

  lemma {:induction false} ChecksExpire(cfg: Config, s: State, calls: seq<(int, Key)>, u: Key)
    requires cfg.windowSecs > 0 && s.inflight == map[] && Timed(s.now, calls) && AllExpire(cfg, s)
    ensures AllExpire(cfg, Checks(cfg, s, calls)) && s.now <= Checks(cfg, s, calls).now
    ensures (forall i :: 0 <= i < |calls| ==> calls[i].1 != u) ==>
              (u in Checks(cfg, s, calls).cache <==> u in s.cache)
                  && (u in s.cache ==> Checks(cfg, s, calls).cache[u] == s.cache[u])
    decreases |calls|
  {
    if calls != [] {
      CheckEnds(cfg, s, calls[0].0, calls[0].1);
      CheckExpires(cfg, s, calls[0].0, calls[0].1);
      assert forall i :: 0 <= i < |calls[1..]| ==> calls[1..][i] == calls[i + 1];
      ChecksExpire(cfg, Check(cfg, s, calls[0].0, calls[0].1), calls[1..], u);
    }
  }

  // Retry-After is sound when checks are atomic: after any history of checks, a user whose check at time t0 has been
  // answered, however it was answered, and who then sends nothing for a window, is admitted by the next check. The
  // requests rejected before that never push the moment back.
  lemma RetryAfterIsSound(cfg: Config, before: seq<(int, Key)>, t0: int, between: seq<(int, Key)>, t: int, u: Key)
    requires cfg.windowSecs > 0 && cfg.maxReqs >= 1 && Timed(0, before)
    requires Checks(cfg, START, before).now <= t0 && Timed(t0, between)
             && forall i :: 0 <= i < |between| ==> between[i].1 != u
    ensures var s0 := Check(cfg, Checks(cfg, START, before), t0, u);
            s0.inflight == map[] && s0.now == t0
    ensures var s0 := Check(cfg, Checks(cfg, START, before), t0, u);
            var s1 := Checks(cfg, s0, between);
            s1.now <= t && t0 + cfg.windowSecs * 1000 <= t ==>
              var s2 := Check(cfg, s1, t, u);
              |s2.decisions| == |s1.decisions| + 1 && s2.decisions[|s1.decisions|].outcome.Allowed?
  {
    ChecksExpire(cfg, START, before, u);
    var s := Checks(cfg, START, before);
    CheckEnds(cfg, s, t0, u);
    CheckExpires(cfg, s, t0, u);
    AdmittedAfterSilence(cfg, Check(cfg, s, t0, u), between, t, u);
  }

  lemma AdmittedAfterSilence(cfg: Config, s: State, between: seq<(int, Key)>, t: int, u: Key)
    requires cfg.windowSecs > 0 && cfg.maxReqs >= 1 && s.inflight == map[] && AllExpire(cfg, s) && Timed(s.now, between)
    requires forall i :: 0 <= i < |between| ==> between[i].1 != u
    ensures var s1 := Checks(cfg, s, between);
            s1.now <= t && s.now + Window(cfg) <= t ==>
              var s2 := Check(cfg, s1, t, u);
              |s2.decisions| == |s1.decisions| + 1 && s2.decisions[|s1.decisions|].outcome.Allowed?
  {
    ChecksExpire(cfg, s, between, u);
    var s1 := Checks(cfg, s, between);
    if s1.now <= t && s.now + Window(cfg) <= t {
      assert !Live(s1.cache, u, t);
      FirstAdmitted(cfg, s1, t, u);
    }
  }

  // With a window of zero seconds the expiry call drops the counter at once, so every atomic check is admitted.
  lemma {:induction false} NoWindowNoLimit(cfg: Config, s: State, calls: seq<(int, Key)>)
    requires cfg.windowSecs <= 0 && cfg.maxReqs >= 1 && s.inflight == map[] && s.cache == map[] && Timed(s.now, calls)
    requires forall i :: 0 <= i < |s.decisions| ==> s.decisions[i].outcome.Allowed?
    ensures |Checks(cfg, s, calls).decisions| == |s.decisions| + |calls|
    ensures forall i :: 0 <= i < |Checks(cfg, s, calls).decisions| ==>
            Checks(cfg, s, calls).decisions[i].outcome.Allowed?
    decreases |calls|
  {
    if calls != [] {
      CheckEnds(cfg, s, calls[0].0, calls[0].1);
      var s' := Check(cfg, s, calls[0].0, calls[0].1);
      assert s'.cache == map[];
      NoWindowNoLimit(cfg, s', calls[1..]);
    }
  }

  // ---- the bound of 2 * maxReqs - 1 is reached ----

  /** k checks of u at one instant. */
  function Burst(t: int, u: Key, k: nat): (r: seq<(int, Key)>)
    ensures |r| == k
  {
    if k == 0 then [] else [(t, u)] + Burst(t, u, k - 1)
  }

  lemma {:induction false} BurstTimed(from: int, t: int, u: Key, k: nat)
    requires from <= t
    ensures Timed(from, Burst(t, u, k))
    decreases k
  {
    if k > 0 { BurstTimed(t, t, u, k - 1); assert Burst(t, u, k)[1..] == Burst(t, u, k - 1); }
  }

  // While the counter lives and the limit is not reached, a burst is admitted whole and only counts.
  lemma {:induction false} BurstAdmitted(cfg: Config, s: State, t: int, u: Key, k: nat)
    requires cfg.windowSecs > 0 && s.inflight == map[] && s.now <= t && Live(s.cache, u, t) && 1 <= s.cache[u].count
             && s.cache[u].count + k <= cfg.maxReqs
    ensures Timed(s.now, Burst(t, u, k))
    ensures var s' := Checks(cfg, s, Burst(t, u, k));
            && s'.now <= t && |s'.decisions| == |s.decisions| + k && s'.decisions[..|s.decisions|] == s.decisions
            && (forall i :: |s.decisions| <= i < |s'.decisions| ==>
                 s'.decisions[i].t == t && s'.decisions[i].key == u && s'.decisions[i].outcome.Allowed?)
            && u in s'.cache && s'.cache[u] == Entry(s.cache[u].count + k, s.cache[u].expiry)
    decreases k
  {
    BurstTimed(s.now, t, u, k);
    if k > 0 {
      CheckEnds(cfg, s, t, u);
      var s1 := Check(cfg, s, t, u);
      assert Burst(t, u, k)[1..] == Burst(t, u, k - 1);
      BurstAdmitted(cfg, s1, t, u, k - 1);
      PrefixOfPrefix(s.decisions, s1.decisions, Checks(cfg, s, Burst(t, u, k)).decisions);
    }
  }

  lemma PrefixOfPrefix<T>(a: seq<T>, b: seq<T>, c: seq<T>)
    requires |a| + 1 == |b| <= |c| && b[..|a|] == a && c[..|b|] == b
    ensures c[..|a|] == a && c[|a|] == b[|a|]
  {
    assert c[..|b|][..|a|] == c[..|a|] && c[..|b|][|a|] == c[|a|];
  }

  // A new counter's first check is admitted and starts its window.
  lemma FirstAdmitted(cfg: Config, s: State, t: int, u: Key)
    requires cfg.windowSecs > 0 && cfg.maxReqs >= 1 && s.inflight == map[] && s.now <= t && !Live(s.cache, u, t)
    ensures var s' := Check(cfg, s, t, u);
            && |s'.decisions| == |s.decisions| + 1 && s'.decisions[..|s.decisions|] == s.decisions
            && s'.decisions[|s.decisions|].outcome.Allowed? && s'.decisions[|s.decisions|].t == t
                 && s'.decisions[|s.decisions|].key == u
            && s'.inflight == map[] && s'.now == t && u in s'.cache && s'.cache[u] == Entry(1, Some(t + Window(cfg)))
  {}

  /** The indices from 1 up to, but not including, hi. */
  function FromOne(hi: nat): (r: set<nat>)
    requires hi >= 1
    ensures |r| == hi - 1 && forall i :: i in r <==> 1 <= i < hi
  {
    if hi == 1 then {} else FromOne(hi - 1) + {hi - 1}
  }

  lemma {:induction false} ChecksAppend(cfg: Config, s: State, a: seq<(int, Key)>, b: seq<(int, Key)>)
    requires s.inflight == map[] && Timed(s.now, a) && Timed(Checks(cfg, s, a).now, b)
    ensures Timed(s.now, a + b) && Checks(cfg, s, a + b) == Checks(cfg, Checks(cfg, s, a), b)
    decreases |a|
  {
    if a == [] {
      assert a + b == b;
    } else {
      CheckEnds(cfg, s, a[0].0, a[0].1);
      assert (a + b)[1..] == a[1..] + b;
      ChecksAppend(cfg, Check(cfg, s, a[0].0, a[0].1), a[1..], b);
    }
  }

  lemma {:induction false} RunAppend(cfg: Config, s: State, a: seq<Event>, b: seq<Event>)
    requires Legal(cfg, s, a) && Legal(cfg, Run(cfg, s, a), b)
    ensures Legal(cfg, s, a + b) && Run(cfg, s, a + b) == Run(cfg, Run(cfg, s, a), b)
    decreases |a|
  {
    if a == [] {
      assert a + b == b;
    } else {
      assert (a + b)[1..] == a[1..] + b;
      RunAppend(cfg, Apply(cfg, s, a[0]), a[1..], b);
    }
  }

  // Atomic checks are one of the interleavings.
  lemma {:induction false} ChecksAreRuns(cfg: Config, s: State, calls: seq<(int, Key)>) returns (trace: seq<Event>)
    requires s.inflight == map[] && Timed(s.now, calls)
    ensures Legal(cfg, s, trace) && Run(cfg, s, trace) == Checks(cfg, s, calls)
    decreases |calls|
  {
    if calls == [] {
      trace := [];
    } else {
      var t, key := calls[0].0, calls[0].1;
      CheckEnds(cfg, s, t, key);
      var s1 := Apply(cfg, s, IncrCall(t, 0, key, true));
      var rest := ChecksAreRuns(cfg, Check(cfg, s, t, key), calls[1..]);
      var tail := if 0 in s1.inflight then [ExpireCall(t, 0, key, true)] + rest else rest;
      assert tail[if 0 in s1.inflight then 1 else 0..] == rest;
      trace := [IncrCall(t, 0, key, true)] + tail;
      assert trace[1..] == tail;
    }
  }

  /** From index `from` on, every decision admits u at a time in the given interval. */
  predicate AllAdmitted(s: State, u: Key, from: nat, lo: int, hi: int) {
    forall i :: from <= i < |s.decisions| ==>
        s.decisions[i].key == u && s.decisions[i].outcome.Allowed? && lo <= s.decisions[i].t < hi
  }

  // One check, and a burst that uses up the limit just before the counter expires.
  lemma FirstWindow(cfg: Config, u: Key) returns (calls: seq<(int, Key)>)
    requires cfg.windowSecs > 0 && cfg.maxReqs >= 1
    ensures Timed(0, calls)
    ensures var s := Checks(cfg, START, calls);
            && |s.decisions| == cfg.maxReqs && AllAdmitted(s, u, 1, Window(cfg) - 1, 2 * Window(cfg) - 1)
            && s.now < Window(cfg) && u in s.cache && s.cache[u].expiry == Some(Window(cfg))
  {
    var w, m := Window(cfg), cfg.maxReqs - 1;
    FirstAdmitted(cfg, START, 0, u);
    var s0 := Check(cfg, START, 0, u);
    assert [(0, u)][1..] == [] && Checks(cfg, START, [(0, u)]) == s0;
    BurstAdmitted(cfg, s0, w - 1, u, m);
    ChecksAppend(cfg, START, [(0, u)], Burst(w - 1, u, m));
    calls := [(0, u)] + Burst(w - 1, u, m);
  }

  // The same again once the counter has expired.
  lemma SecondWindow(cfg: Config, u: Key, s: State) returns (calls: seq<(int, Key)>)
    requires cfg.windowSecs > 0 && cfg.maxReqs >= 1 && s.inflight == map[] && s.now < Window(cfg)
    requires u in s.cache && s.cache[u].expiry == Some(Window(cfg))
    requires |s.decisions| == cfg.maxReqs && AllAdmitted(s, u, 1, Window(cfg) - 1, 2 * Window(cfg) - 1)
    ensures Timed(s.now, calls)
    ensures var s' := Checks(cfg, s, calls);
            |s'.decisions| == 2 * cfg.maxReqs && AllAdmitted(s', u, 1, Window(cfg) - 1, 2 * Window(cfg) - 1)
  {
    var w, m := Window(cfg), cfg.maxReqs - 1;
    FirstAdmitted(cfg, s, w, u);
    var s0 := Check(cfg, s, w, u);
    assert [(w, u)][1..] == [] && Checks(cfg, s, [(w, u)]) == s0;
    BurstAdmitted(cfg, s0, w, u, m);
    ChecksAppend(cfg, s, [(w, u)], Burst(w, u, m));
    calls := [(w, u)] + Burst(w, u, m);
    var s' := Checks(cfg, s, calls);
    forall i | 1 <= i < |s'.decisions|
      ensures s'.decisions[i].key == u && s'.decisions[i].outcome.Allowed? && w - 1 <= s'.decisions[i].t < 2 * w - 1
    {
      if i < |s0.decisions| { assert s'.decisions[i] == s'.decisions[..|s0.decisions|][i]; }
      if i < |s.decisions| { assert s0.decisions[i] == s0.decisions[..|s.decisions|][i]; }
    }
  }

  lemma BothWindows(cfg: Config, u: Key) returns (calls: seq<(int, Key)>)
    requires cfg.windowSecs > 0 && cfg.maxReqs >= 1
    ensures Timed(0, calls)
    ensures |Checks(cfg, START, calls).decisions| == 2 * cfg.maxReqs
    ensures AllAdmitted(Checks(cfg, START, calls), u, 1, Window(cfg) - 1, 2 * Window(cfg) - 1)
  {
    var first := FirstWindow(cfg, u);
    var second := SecondWindow(cfg, u, Checks(cfg, START, first));
    ChecksAppend(cfg, START, first, second);
    calls := first + second;
  }

  // The sliding bound is exact: for every limit and window some run of atomic checks puts 2 * maxReqs - 1 admissions of
  // one user in one interval as long as the window.
  lemma SlidingBoundIsReached(cfg: Config, u: Key) returns (calls: seq<(int, Key)>)
    requires cfg.windowSecs > 0 && cfg.maxReqs >= 1
    ensures Timed(0, calls)
    ensures var ds, w := Checks(cfg, START, calls).decisions, cfg.windowSecs * 1000;
            |set i: nat | i < |ds| && ds[i].key == u && ds[i].outcome == Allowed && w - 1 <= ds[i].t < (w - 1) + w|
            == 2 * cfg.maxReqs - 1
  {
    calls := BothWindows(cfg, u);
    ManyAdmitted(cfg, Checks(cfg, START, calls), u);
    var trace := ChecksAreRuns(cfg, START, calls);
    SlidingIntervalBound(cfg, trace, u, Window(cfg) - 1);
    AdmittedMeans(Checks(cfg, START, calls), u, Window(cfg) - 1, (Window(cfg) - 1) + Window(cfg));
  }

  lemma ManyAdmitted(cfg: Config, s: State, u: Key)
    requires cfg.maxReqs >= 1 && |s.decisions| == 2 * cfg.maxReqs
             && AllAdmitted(s, u, 1, Window(cfg) - 1, 2 * Window(cfg) - 1)
    ensures |Admitted(s, u, Window(cfg) - 1, (Window(cfg) - 1) + Window(cfg))| >= 2 * cfg.maxReqs - 1
  {
    var indices := FromOne(2 * cfg.maxReqs);
    assert indices <= Admitted(s, u, Window(cfg) - 1, (Window(cfg) - 1) + Window(cfg));
    SubsetSize(indices, Admitted(s, u, Window(cfg) - 1, (Window(cfg) - 1) + Window(cfg)));
  }

  lemma SubsetSize(a: set<nat>, b: set<nat>)
    requires a <= b
    ensures |a| <= |b|
  {
    assert b == a + (b - a);
  }
}
