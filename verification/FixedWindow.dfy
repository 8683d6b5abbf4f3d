// Atomic checks decide exactly what a fixed window over the times of the calls decides.
module FixedWindow {
  import opened Basics
  import opened RateLimit
  import opened RetryAfter

  /** A user's window: when it opened and how many of the user's calls it holds. */
  datatype Counting = Counting(since: int, count: nat)

  /** The window of u after these calls: a call joins it for `secs` seconds from its opening, and else opens another. */
  function WindowOf(secs: int, calls: seq<(int, Key)>, u: Key): Option<Counting> {
    if calls == [] then None
    else
      var n := |calls| - 1;
      var before := WindowOf(secs, calls[..n], u);
      if calls[n].1 != u then before
      else if before.Some? && calls[n].0 < before.value.since + secs * 1000
        then Some(Counting(before.value.since, before.value.count + 1))
      else Some(Counting(calls[n].0, 1))
  }

  lemma {:induction false} TimedPrefix(from: int, calls: seq<(int, Key)>, n: nat)
    requires Timed(from, calls) && n <= |calls|
    ensures Timed(from, calls[..n])
    decreases |calls|
  {
    if n > 0 {
      TimedPrefix(calls[0].0, calls[1..], n - 1);
      assert calls[..n][1..] == calls[1..][..n - 1];
    }
  }

  // The last check of a run.
  lemma LastCheck(cfg: Config, calls: seq<(int, Key)>)
    requires calls != [] && Timed(0, calls)
    ensures var n := |calls| - 1;
            && Timed(0, calls[..n]) && Checks(cfg, START, calls[..n]).now <= calls[n].0
            && Checks(cfg, START, calls) == Check(cfg, Checks(cfg, START, calls[..n]), calls[n].0, calls[n].1)
  {
    var n := |calls| - 1;
    TimedPrefix(0, calls, n);
    EndsInTime(cfg, START, calls, n);
    var s := Checks(cfg, START, calls[..n]);
    var last := [calls[n]];
    CheckEnds(cfg, s, calls[n].0, calls[n].1);
    assert last[1..] == [] && Timed(s.now, last);
    assert Checks(cfg, s, last) == Check(cfg, s, calls[n].0, calls[n].1);
    ChecksAppend(cfg, START, calls[..n], last);
    assert calls == calls[..n] + last;
  }

  lemma {:induction false} EndsInTime(cfg: Config, s: State, calls: seq<(int, Key)>, n: nat)
    requires s.inflight == map[] && Timed(s.now, calls) && n < |calls|
    ensures Timed(s.now, calls[..n]) && Checks(cfg, s, calls[..n]).now <= calls[n].0
    decreases n
  {
    TimedPrefix(s.now, calls, n);
    if n > 0 {
      CheckEnds(cfg, s, calls[0].0, calls[0].1);
      assert calls[..n][1..] == calls[1..][..n - 1];
      EndsInTime(cfg, Check(cfg, s, calls[0].0, calls[0].1), calls[1..], n - 1);
    }
  }

  /** The cache holds exactly the users' windows. */
  predicate CacheHolds(cfg: Config, s: State, calls: seq<(int, Key)>, u: Key) {
    var w := WindowOf(cfg.windowSecs, calls, u);
    && (u in s.cache <==> w.Some?)
    && (w.Some? ==> s.cache[u] == Entry(w.value.count, Some(w.value.since + cfg.windowSecs * 1000)))
  }

  // What one check does to the cache and answers.
  lemma CheckCounts(cfg: Config, s: State, t: int, key: Key)
    requires cfg.windowSecs > 0 && s.now <= t && s.inflight == map[] && (key in s.cache ==> s.cache[key].count >= 1)
    ensures var s' := Check(cfg, s, t, key);
            var n := if Live(s.cache, key, t) then s.cache[key].count + 1 else 1;
            && key in s'.cache && s'.cache[key]
               == Entry(n, if Live(s.cache, key, t) then s.cache[key].expiry else Some(t + cfg.windowSecs * 1000))
            && (forall u :: u != key ==>
                 (u in s'.cache <==> u in s.cache) && (u in s.cache ==> s'.cache[u] == s.cache[u]))
            && |s'.decisions| == |s.decisions| + 1
            && s'.decisions[|s.decisions|].outcome == if n <= cfg.maxReqs then Allowed else Limited
  {}

  lemma NextWindow(secs: int, calls: seq<(int, Key)>, t: int, key: Key, u: Key)
    ensures var w := WindowOf(secs, calls, u);
            WindowOf(secs, calls + [(t, key)], u)
            == if key != u then w
               else if w.Some? && t < w.value.since + secs * 1000 then Some(Counting(w.value.since, w.value.count + 1))
               else Some(Counting(t, 1))
  {
    assert (calls + [(t, key)])[..|calls|] == calls;
  }

  // One check: the cache goes on holding the windows, and the answer is whether the window's count is within the limit.
  lemma CheckJoinsWindow(cfg: Config, s: State, calls: seq<(int, Key)>, t: int, key: Key, u: Key)
    requires cfg.windowSecs > 0 && s.now <= t && s.inflight == map[] && CacheHolds(cfg, s, calls, u)
             && CacheHolds(cfg, s, calls, key)
    ensures CacheHolds(cfg, Check(cfg, s, t, key), calls + [(t, key)], u)
    ensures key == u ==>
              var now := WindowOf(cfg.windowSecs, calls + [(t, key)], u);
              && now.Some? && |Check(cfg, s, t, key).decisions| == |s.decisions| + 1
              && Check(cfg, s, t, key).decisions[|s.decisions|].outcome
                 == if now.value.count <= cfg.maxReqs then Allowed else Limited
  {
    WindowsCount(cfg.windowSecs, calls, key);
    CheckCounts(cfg, s, t, key);
    NextWindow(cfg.windowSecs, calls, t, key, u);
  }

  lemma {:induction false} WindowsCount(secs: int, calls: seq<(int, Key)>, u: Key)
    ensures WindowOf(secs, calls, u).Some? ==> WindowOf(secs, calls, u).value.count >= 1
    decreases |calls|
  {
    if calls != [] { WindowsCount(secs, calls[..|calls| - 1], u); }
  }

  lemma {:induction false} CacheIsWindows(cfg: Config, calls: seq<(int, Key)>, u: Key)
    requires cfg.windowSecs > 0 && Timed(0, calls)
    ensures CacheHolds(cfg, Checks(cfg, START, calls), calls, u)
    decreases |calls|
  {
    if calls != [] {
      var n := |calls| - 1;
      LastCheck(cfg, calls);
      CacheIsWindows(cfg, calls[..n], u);
      CacheIsWindows(cfg, calls[..n], calls[n].1);
      CheckJoinsWindow(cfg, Checks(cfg, START, calls[..n]), calls[..n], calls[n].0, calls[n].1, u);
      assert calls == calls[..n] + [calls[n]];
    }
  }

  lemma {:induction false} OneDecisionEach(cfg: Config, calls: seq<(int, Key)>)
    requires Timed(0, calls)
    ensures |Checks(cfg, START, calls).decisions| == |calls|
    ensures forall n :: 0 <= n <= |calls| ==>
              Timed(0, calls[..n])
              && Checks(cfg, START, calls[..n]).decisions == Checks(cfg, START, calls).decisions[..n]
    decreases |calls|
  {
    var ds := Checks(cfg, START, calls).decisions;
    if calls == [] {
      assert forall n :: 0 <= n <= |calls| ==> calls[..n] == calls;
    } else {
      var m := |calls| - 1;
      LastCheck(cfg, calls);
      OneDecisionEach(cfg, calls[..m]);
      CheckEnds(cfg, Checks(cfg, START, calls[..m]), calls[m].0, calls[m].1);
      forall n | 0 <= n <= |calls|
        ensures Timed(0, calls[..n]) && Checks(cfg, START, calls[..n]).decisions == ds[..n]
      {
        if n == |calls| {
          assert calls[..n] == calls && ds[..n] == ds;
        } else {
          assert calls[..m][..n] == calls[..n] && ds[..m][..n] == ds[..n];
        }
      }
    }
  }

  // The answer to the last check of a run.
  lemma LastDecides(cfg: Config, calls: seq<(int, Key)>)
    requires cfg.windowSecs > 0 && Timed(0, calls) && calls != []
    ensures |Checks(cfg, START, calls).decisions| == |calls|
    ensures var w := WindowOf(cfg.windowSecs, calls, calls[|calls| - 1].1);
            && w.Some?
            && Checks(cfg, START, calls).decisions[|calls| - 1].outcome
               == if w.value.count <= cfg.maxReqs then Allowed else Limited
  {
    var n := |calls| - 1;
    LastCheck(cfg, calls);
    OneDecisionEach(cfg, calls[..n]);
    CacheIsWindows(cfg, calls[..n], calls[n].1);
    CheckJoinsWindow(cfg, Checks(cfg, START, calls[..n]), calls[..n], calls[n].0, calls[n].1, calls[n].1);
    assert calls == calls[..n] + [calls[n]];
  }

  // The limiter is a fixed-window counter: in every run of atomic checks the i-th check is admitted if and only if the
  // user's window, by the times of the calls alone, holds no more than maxReqs calls with it; otherwise it is limited.
  lemma FixedWindowDecides(cfg: Config, calls: seq<(int, Key)>, i: nat)
    requires cfg.windowSecs > 0 && Timed(0, calls) && i < |calls|
    ensures |Checks(cfg, START, calls).decisions| == |calls|
    ensures var w := WindowOf(cfg.windowSecs, calls[..i + 1], calls[i].1);
            && w.Some?
            && Checks(cfg, START, calls).decisions[i].outcome
               == if w.value.count <= cfg.maxReqs then Allowed else Limited
  {
    OneDecisionEach(cfg, calls);
    TimedPrefix(0, calls, i + 1);
    LastDecides(cfg, calls[..i + 1]);
    assert Checks(cfg, START, calls[..i + 1]).decisions == Checks(cfg, START, calls).decisions[..i + 1];
  }

  // ---- the same without a counter ----

  /** The calls of u from f up to i. */
  function CallsOf(calls: seq<(int, Key)>, u: Key, f: nat, i: nat): set<nat> {
    set k: nat | f <= k < i && k < |calls| && calls[k].1 == u
  }

  lemma {:induction false} WindowsOpenAtCalls(secs: int, calls: seq<(int, Key)>, u: Key)
    ensures WindowOf(secs, calls, u).Some? <==> exists k: nat :: k < |calls| && calls[k].1 == u
    ensures WindowOf(secs, calls, u).Some? ==>
              exists k: nat :: k < |calls| && calls[k] == (WindowOf(secs, calls, u).value.since, u)
    decreases |calls|
  {
    if calls != [] {
      var n := |calls| - 1;
      WindowsOpenAtCalls(secs, calls[..n], u);
      var w := WindowOf(secs, calls[..n], u);
      if w.Some? {
        var k: nat :| k < n && calls[..n][k] == (w.value.since, u);
        assert calls[k] == (w.value.since, u);
      }
      if k: nat :| k < n && calls[k].1 == u { assert calls[..n][k].1 == u; }
    }
  }

  /** Call f comes after the user was silent for a window, or is the user's first. */
  predicate AfterSilence(secs: int, calls: seq<(int, Key)>, f: nat)
    requires f < |calls|
  {
    forall k :: 0 <= k < f && calls[k].1 == calls[f].1 ==> calls[k].0 + secs * 1000 <= calls[f].0
  }

  lemma SilenceOpens(secs: int, calls: seq<(int, Key)>, f: nat)
    requires f < |calls| && AfterSilence(secs, calls, f)
    ensures WindowOf(secs, calls[..f + 1], calls[f].1) == Some(Counting(calls[f].0, 1))
  {
    WindowsOpenAtCalls(secs, calls[..f], calls[f].1);
    assert calls[..f + 1][..f] == calls[..f];
    var w := WindowOf(secs, calls[..f], calls[f].1);
    if w.Some? {
      var k: nat :| k < f && calls[..f][k] == (w.value.since, calls[f].1);
      assert calls[k] == (w.value.since, calls[f].1);
    }
  }

  lemma {:induction false} WindowFills(secs: int, calls: seq<(int, Key)>, f: nat, i: nat)
    requires f < i <= |calls| && AfterSilence(secs, calls, f) && secs > 0
    requires forall k :: f < k < i && calls[k].1 == calls[f].1 ==> calls[k].0 < calls[f].0 + secs * 1000
    ensures WindowOf(secs, calls[..i], calls[f].1)
         == Some(Counting(calls[f].0, |CallsOf(calls, calls[f].1, f, i)|))
    decreases i
  {
    var u := calls[f].1;
    if i == f + 1 {
      SilenceOpens(secs, calls, f);
      assert CallsOf(calls, u, f, i) == {f};
    } else {
      WindowFills(secs, calls, f, i - 1);
      assert calls[..i][..i - 1] == calls[..i - 1];
      if calls[i - 1].1 == u {
        assert CallsOf(calls, u, f, i) == CallsOf(calls, u, f, i - 1) + {i - 1};
      } else {
        assert CallsOf(calls, u, f, i) == CallsOf(calls, u, f, i - 1);
      }
    }
  }

  // The window of call i, when every earlier call of the user since f fell into f's window.
  lemma WindowAt(secs: int, calls: seq<(int, Key)>, f: nat, i: nat)
    requires f <= i < |calls| && AfterSilence(secs, calls, f) && secs > 0 && calls[i].1 == calls[f].1
    requires forall k :: f < k < i && calls[k].1 == calls[f].1 ==> calls[k].0 < calls[f].0 + secs * 1000
    ensures WindowOf(secs, calls[..i + 1], calls[f].1)
         == if f == i || calls[i].0 < calls[f].0 + secs * 1000
            then Some(Counting(calls[f].0, |CallsOf(calls, calls[f].1, f, i + 1)|)) else Some(Counting(calls[i].0, 1))
  {
    if f == i || calls[i].0 < calls[f].0 + secs * 1000 {
      WindowFills(secs, calls, f, i + 1);
    } else {
      WindowFills(secs, calls, f, i);
      assert calls[..i + 1][..i] == calls[..i];
    }
  }

  // The limit in terms of the calls alone. A user's call f that comes after a window of silence opens a window of
  // windowSecs * 1000 milliseconds. A later call within it is admitted if and only if it is among the user's first
  // maxReqs calls from f on, and is rejected otherwise; the first call at the window's end or after is admitted again.
  lemma LimitHoldsForTheWholeWindow(cfg: Config, calls: seq<(int, Key)>, f: nat, i: nat)
    requires cfg.windowSecs > 0 && cfg.maxReqs >= 1 && Timed(0, calls) && f <= i < |calls|
    requires calls[i].1 == calls[f].1
    requires forall k :: 0 <= k < f && calls[k].1 == calls[f].1 ==> calls[k].0 + cfg.windowSecs * 1000 <= calls[f].0
    requires forall k :: f < k < i && calls[k].1 == calls[f].1 ==> calls[k].0 < calls[f].0 + cfg.windowSecs * 1000
    ensures |Checks(cfg, START, calls).decisions| == |calls|
    ensures var outcome := Checks(cfg, START, calls).decisions[i].outcome;
            if calls[i].0 < calls[f].0 + cfg.windowSecs * 1000
            then outcome == if |set k: nat | f <= k <= i && calls[k].1 == calls[f].1| <= cfg.maxReqs
                            then Allowed else Limited
            else outcome == Allowed
  {
    FixedWindowDecides(cfg, calls, i);
    WindowAt(cfg.windowSecs, calls, f, i);
    assert (set k: nat | f <= k <= i && calls[k].1 == calls[f].1) == CallsOf(calls, calls[f].1, f, i + 1);
  }
}
