// The fixed-window rate limiter: a counter per user in a cache with expiry, where counting a request and setting the
// counter's expiry are two separate cache calls.
module RateLimit {
  import opened Basics

  type Key = nat
  type Req = nat

  // ---- the cache ----

  /** A counter and the time, in milliseconds, at which the cache drops it. */
  datatype Entry = Entry(count: nat, expiry: Option<int>)

  type Cache = map<Key, Entry>

  predicate Live(cache: Cache, key: Key, t: int) {
    key in cache && (cache[key].expiry.Some? ==> t < cache[key].expiry.value)
  }

  /** INCR: a missing or expired counter starts at 1 without an expiry; a live one keeps its expiry. */
  function Incr(cache: Cache, t: int, key: Key): (r: Cache)
    ensures key in r
  {
    if Live(cache, key, t) then cache[key := cache[key].(count := cache[key].count + 1)]
        else cache[key := Entry(1, None)]
  }

  /** EXPIRE: sets the expiry of a live counter; a time to live of zero or less drops it at once. */
  function Expire(cache: Cache, t: int, key: Key, ttl: int): Cache {
    if !Live(cache, key, t) then cache
    else if ttl <= 0 then cache - {key}
    else cache[key := cache[key].(expiry := Some(t + ttl))]
  }

  // ---- requests as interleaved cache calls ----

  datatype Config = Config(maxReqs: int, windowSecs: int)

  function Window(cfg: Config): int { cfg.windowSecs * 1000 }

  datatype Outcome = Allowed | Limited | Failed

  /** One finished check. `gen` and `n` are history: the counter's generation and the value the request was given. */
  datatype Decision = Decision(t: int, key: Key, outcome: Outcome, gen: nat, n: nat)

  /** History: when a generation of a counter began, and its expiry once set. */
  datatype Life = Life(born: int, expiry: Option<int>)

  /** A cache call of some request reaching the cache at time t; `ok` is false when it fails without effect. */
  datatype Event = IncrCall(t: int, req: Req, key: Key, ok: bool) | ExpireCall(t: int, req: Req, key: Key, ok: bool)

  datatype State = State(
    cache: Cache,
    inflight: map<Req, Key>,       // requests that read 1 and have still to set the expiry
    decisions: seq<Decision>,
    now: int,
    lives: map<Key, seq<Life>>     // history
  )

  const START: State := State(map[], map[], [], 0, map[])

  function LivesOf(s: State, u: Key): seq<Life> { if u in s.lives then s.lives[u] else [] }

  predicate Enabled(s: State, e: Event) {
    && s.now <= e.t
    && (e.IncrCall? ==> e.req !in s.inflight)
    && (e.ExpireCall? ==> e.req in s.inflight && s.inflight[e.req] == e.key)
  }

  function Verdict(cfg: Config, n: nat): Outcome { if n <= cfg.maxReqs then Allowed else Limited }

  /** The counter call: the cache counts, and a new counter begins a generation. */
  function CountRequest(s: State, t: int, key: Key): State {
    s.(now := t, cache := Incr(s.cache, t, key),
       lives := if Live(s.cache, key, t) then s.lives else s.lives[key := LivesOf(s, key) + [Life(t, None)]])
  }

  function EndLife(lives: seq<Life>, k: nat, expiry: int): seq<Life>
    requires k < |lives|
  {
    lives[k := lives[k].(expiry := Some(expiry))]
  }

  /** The expiry call: the cache sets it, and the generation's life gets its end. */
  function SetExpiry(cfg: Config, s: State, t: int, key: Key): State {
    s.(now := t, cache := Expire(s.cache, t, key, Window(cfg)),
       lives := if Live(s.cache, key, t) && LivesOf(s, key) != [] && Window(cfg) > 0
                then s.lives[key := EndLife(s.lives[key], Last(s, key), t + Window(cfg))]
                else s.lives)
  }

  function Decide(s: State, d: Decision): State { s.(now := d.t, decisions := s.decisions + [d]) }

  function Apply(cfg: Config, s: State, e: Event): State
    requires Enabled(s, e)
  {
    match e
    case IncrCall(t, req, key, ok) =>
      if !ok then Decide(s, Decision(t, key, Failed, 0, 0))
      else
        var s' := CountRequest(s, t, key);
        var n := s'.cache[key].count;
        if n == 1 then s'.(inflight := s.inflight[req := key])
            else Decide(s', Decision(t, key, Verdict(cfg, n), Last(s', key), n))
    case ExpireCall(t, req, key, ok) =>
      var done := s.(inflight := s.inflight - {req});
      if !ok then Decide(done, Decision(t, key, Failed, 0, 0))
      else Decide(SetExpiry(cfg, done, t, key), Decision(t, key, Verdict(cfg, 1), Last(s, key), 1))
  }

  /** The number of the latest generation of a key. */
  function Last(s: State, u: Key): nat { if LivesOf(s, u) == [] then 0 else |LivesOf(s, u)| - 1 }

  predicate Legal(cfg: Config, s: State, trace: seq<Event>)
    decreases |trace|
  {
    trace == [] || (Enabled(s, trace[0]) && Legal(cfg, Apply(cfg, s, trace[0]), trace[1..]))
  }

  function Run(cfg: Config, s: State, trace: seq<Event>): State
    requires Legal(cfg, s, trace)
    decreases |trace|
  {
    if trace == [] then s else Run(cfg, Apply(cfg, s, trace[0]), trace[1..])
  }

  // ---- what every interleaving keeps, for one user ----

  predicate Pending(s: State, u: Key) { exists r <- s.inflight :: s.inflight[r] == u }

  predicate CacheOK(s: State, u: Key, w: int) {
    var lives := LivesOf(s, u);
    && (u in s.cache <==> lives != [])
    && (u in s.cache ==> s.cache[u].count >= 1 && s.cache[u].expiry == lives[|lives| - 1].expiry)
    && (forall r1, r2 :: r1 in s.inflight && r2 in s.inflight && s.inflight[r1] == u && s.inflight[r2] == u ==>
         r1 == r2)
    && (Pending(s, u) ==> u in s.cache && s.cache[u].expiry.None?)
  }

  /** A generation lives at least a window once its expiry is set, and ends before any later one is born. */
  predicate LivesOK(lives: seq<Life>, now: int, w: int) {
    && (forall g :: 0 <= g < |lives| ==> lives[g].born <= now)
    && (forall g :: 0 <= g < |lives| && lives[g].expiry.Some? ==> lives[g].born + w <= lives[g].expiry.value <= now + w)
    && (forall g, h :: 0 <= g < h < |lives| ==> lives[g].expiry.Some? && lives[g].expiry.value <= lives[h].born)
  }

  predicate Counted(d: Decision, u: Key) { d.key == u && !d.outcome.Failed? }

  /** A counted decision falls within the life of its generation, and its verdict is that of its number. */
  predicate DecisionOK(cfg: Config, s: State, u: Key, d: Decision) {
    var lives := LivesOf(s, u);
    Counted(d, u) ==>
      && d.gen < |lives| && d.n >= 1 && d.outcome == Verdict(cfg, d.n)
      && lives[d.gen].born <= d.t <= s.now
      && (lives[d.gen].expiry.Some? ==> d.t < lives[d.gen].expiry.value)
      && (d.n == 1 ==> lives[d.gen].expiry == Some(d.t + Window(cfg)))
      && (d.gen == |lives| - 1 ==> u in s.cache && d.n <= s.cache[u].count && (d.n == 1 ==> !Pending(s, u)))
  }

  predicate Distinct(decisions: seq<Decision>, u: Key) {
    forall i, j :: 0 <= i < j < |decisions| && Counted(decisions[i], u) && Counted(decisions[j], u) &&
                   decisions[i].gen == decisions[j].gen ==>
      decisions[i].n != decisions[j].n
  }

  predicate Inv(cfg: Config, s: State, u: Key) {
    && CacheOK(s, u, Window(cfg))
    && LivesOK(LivesOf(s, u), s.now, Window(cfg))
    && (forall i :: 0 <= i < |s.decisions| ==> DecisionOK(cfg, s, u, s.decisions[i]))
    && Distinct(s.decisions, u)
  }

  // ---- a call about another user touches nothing of u's ----

  ghost predicate SameUser(s: State, s': State, u: Key) {
    && LivesOf(s', u) == LivesOf(s, u) && (u in s'.cache <==> u in s.cache)
         && (u in s.cache ==> s'.cache[u] == s.cache[u])
    && (forall r :: (r in s'.inflight && s'.inflight[r] == u) <==> (r in s.inflight && s.inflight[r] == u))
  }

  lemma OtherUser(cfg: Config, s: State, e: Event, u: Key)
    requires Enabled(s, e) && e.key != u
    ensures SameUser(s, Apply(cfg, s, e), u)
    ensures Apply(cfg, s, e).decisions == s.decisions
         || (|Apply(cfg, s, e).decisions| == |s.decisions| + 1
              && Apply(cfg, s, e).decisions[..|s.decisions|] == s.decisions
             && Apply(cfg, s, e).decisions[|s.decisions|].key == e.key)
  {}

  /** No counted decision of u is new. */
  ghost predicate NoNewDecision(s: State, s': State, u: Key) {
    |s.decisions| <= |s'.decisions| <= |s.decisions| + 1 && s'.decisions[..|s.decisions|] == s.decisions
    && (|s'.decisions| > |s.decisions| ==> !Counted(s'.decisions[|s.decisions|], u))
  }

  lemma SameUserKeepsInv(cfg: Config, s: State, s': State, u: Key)
    requires cfg.windowSecs > 0 && Inv(cfg, s, u) && SameUser(s, s', u) && s.now <= s'.now && NoNewDecision(s, s', u)
    ensures Inv(cfg, s', u)
  {
    assert Pending(s', u) == Pending(s, u);
    var was := s'.decisions[..|s.decisions|];
    forall i | 0 <= i < |s'.decisions| ensures DecisionOK(cfg, s', u, s'.decisions[i]) {
      if i < |s.decisions| { assert s'.decisions[i] == was[i]; assert DecisionOK(cfg, s, u, s.decisions[i]); }
    }
    assert forall i :: 0 <= i < |s.decisions| ==> s'.decisions[i] == was[i];
  }

  // ---- a call about u ----

  lemma CountKeepsInv(cfg: Config, s: State, e: Event, u: Key)
    requires cfg.windowSecs > 0 && Inv(cfg, s, u) && Enabled(s, e) && e.IncrCall? && e.ok && e.key == u
             && Live(s.cache, u, e.t)
    ensures Inv(cfg, Apply(cfg, s, e), u)
  {
    var s' := Apply(cfg, s, e);
    assert s'.inflight == s.inflight && Pending(s', u) == Pending(s, u) && LivesOf(s', u) == LivesOf(s, u);
    forall i | 0 <= i < |s'.decisions| ensures DecisionOK(cfg, s', u, s'.decisions[i]) {
      if i < |s.decisions| { assert DecisionOK(cfg, s, u, s.decisions[i]); }
    }
    forall i | 0 <= i < |s.decisions| && Counted(s.decisions[i], u) && s.decisions[i].gen == Last(s', u)
      ensures s.decisions[i].n != s'.cache[u].count
    {
      assert DecisionOK(cfg, s, u, s.decisions[i]);
    }
  }

  lemma BirthKeepsInv(cfg: Config, s: State, e: Event, u: Key)
    requires cfg.windowSecs > 0 && Inv(cfg, s, u) && Enabled(s, e) && e.IncrCall? && e.ok && e.key == u
             && !Live(s.cache, u, e.t)
    ensures Inv(cfg, Apply(cfg, s, e), u)
  {
    var s' := Apply(cfg, s, e);
    assert !Pending(s, u) && LivesOf(s', u) == LivesOf(s, u) + [Life(e.t, None)];
    assert s'.inflight[e.req] == u && Pending(s', u);
    assert forall r :: r in s.inflight ==> s.inflight[r] != u;
    forall i | 0 <= i < |s'.decisions| ensures DecisionOK(cfg, s', u, s'.decisions[i]) {
      assert DecisionOK(cfg, s, u, s.decisions[i]);
    }
  }

  lemma ExpiryKeepsInv(cfg: Config, s: State, e: Event, u: Key)
    requires cfg.windowSecs > 0 && Inv(cfg, s, u) && Enabled(s, e) && e.ExpireCall? && e.ok && e.key == u
    ensures Inv(cfg, Apply(cfg, s, e), u)
  {
    var s' := Apply(cfg, s, e);
    var lives, last := LivesOf(s, u), Last(s, u);
    assert Pending(s, u);
    assert LivesOf(s', u) == lives[last := lives[last].(expiry := Some(e.t + Window(cfg)))];
    assert !Pending(s', u);
    forall i | 0 <= i < |s'.decisions| ensures DecisionOK(cfg, s', u, s'.decisions[i]) {
      if i < |s.decisions| { assert DecisionOK(cfg, s, u, s.decisions[i]); }
    }
    forall i | 0 <= i < |s.decisions| && Counted(s.decisions[i], u) && s.decisions[i].gen == last
      ensures s.decisions[i].n != 1
    {
      assert DecisionOK(cfg, s, u, s.decisions[i]);
    }
  }

  lemma LostExpiryKeepsInv(cfg: Config, s: State, e: Event, u: Key)
    requires cfg.windowSecs > 0 && Inv(cfg, s, u) && Enabled(s, e) && e.ExpireCall? && !e.ok && e.key == u
    ensures Inv(cfg, Apply(cfg, s, e), u)
  {
    var s' := Apply(cfg, s, e);
    assert Pending(s', u) ==> Pending(s, u);
    forall i | 0 <= i < |s'.decisions| ensures DecisionOK(cfg, s', u, s'.decisions[i]) {
      if i < |s.decisions| { assert DecisionOK(cfg, s, u, s.decisions[i]); }
    }
  }

  lemma StepKeepsInv(cfg: Config, s: State, e: Event, u: Key)
    requires cfg.windowSecs > 0 && Inv(cfg, s, u) && Enabled(s, e)
    ensures Inv(cfg, Apply(cfg, s, e), u)
  {
    if e.key != u { OtherUser(cfg, s, e, u); SameUserKeepsInv(cfg, s, Apply(cfg, s, e), u); }
    else if e.IncrCall? {
      if !e.ok { SameUserKeepsInv(cfg, s, Apply(cfg, s, e), u); }
      else if Live(s.cache, u, e.t) { CountKeepsInv(cfg, s, e, u); }
      else { BirthKeepsInv(cfg, s, e, u); }
    } else if e.ok { ExpiryKeepsInv(cfg, s, e, u); }
    else { LostExpiryKeepsInv(cfg, s, e, u); }
  }

  lemma {:induction false} RunKeepsInv(cfg: Config, s: State, trace: seq<Event>, u: Key)
    requires cfg.windowSecs > 0 && Inv(cfg, s, u) && Legal(cfg, s, trace)
    ensures Inv(cfg, Run(cfg, s, trace), u)
    decreases |trace|
  {
    if trace != [] {
      StepKeepsInv(cfg, s, trace[0], u);
      RunKeepsInv(cfg, Apply(cfg, s, trace[0]), trace[1..], u);
    }
  }

  // ---- the sliding-interval bound ----

  /** The requests of u admitted in the half-open interval [from, to). */
  function Admitted(s: State, u: Key, from: int, to: int): set<nat> {
    set i: nat | i < |s.decisions| && s.decisions[i].key == u && s.decisions[i].outcome.Allowed?
        && from <= s.decisions[i].t < to
  }

  lemma AdmittedMeans(s: State, u: Key, from: int, to: int)
    ensures Admitted(s, u, from, to)
         == set i: nat | i < |s.decisions| && s.decisions[i].key == u && s.decisions[i].outcome == Allowed
                && from <= s.decisions[i].t < to
  {}

  lemma {:induction false} InjectiveBound(xs: set<nat>, code: map<nat, int>, n: nat)
    requires xs <= code.Keys && forall i <- xs :: 0 <= code[i] < n
    requires forall i, j :: i in xs && j in xs && code[i] == code[j] ==> i == j
    ensures |xs| <= n
    decreases n
  {
    if x :| x in xs && code[x] == n - 1 {
      InjectiveBound(xs - {x}, code, n - 1);
    } else if n > 0 {
      InjectiveBound(xs, code, n - 1);
    } else {
      assert xs == {};
    }
  }

  // Requests of generations more than one apart are a window apart, and so are a generation's first request and any
  // request of a later generation.
  lemma GenerationsApart(cfg: Config, s: State, u: Key, i: nat, j: nat)
    requires cfg.windowSecs > 0 && Inv(cfg, s, u) && i < |s.decisions| && j < |s.decisions|
    requires Counted(s.decisions[i], u) && Counted(s.decisions[j], u)
    ensures s.decisions[i].gen + 1 < s.decisions[j].gen ==>
            s.decisions[i].t + cfg.windowSecs * 1000 < s.decisions[j].t
    ensures s.decisions[i].gen < s.decisions[j].gen && s.decisions[i].n == 1 ==>
            s.decisions[i].t + cfg.windowSecs * 1000 <= s.decisions[j].t
  {
    assert DecisionOK(cfg, s, u, s.decisions[i]) && DecisionOK(cfg, s, u, s.decisions[j]);
    var lives := LivesOf(s, u);
    if s.decisions[i].gen + 1 < s.decisions[j].gen {
      var mid := lives[s.decisions[i].gen + 1];
      assert lives[s.decisions[i].gen].expiry.value <= mid.born && mid.expiry.value <= lives[s.decisions[j].gen].born;
    }
  }

  /** A place in a row of 2 * maxReqs - 1 for each admitted request, given the earlier generation in the interval. */
  function Place(d: Decision, early: nat, maxReqs: nat): int {
    if d.gen == early then d.n - 2 else maxReqs - 1 + d.n - 1
  }

  lemma OneGenerationBound(cfg: Config, s: State, u: Key, from: int)
    requires cfg.windowSecs > 0 && cfg.maxReqs >= 1 && Inv(cfg, s, u)
    requires forall i, j :: i in Admitted(s, u, from, from + Window(cfg)) &&
                            j in Admitted(s, u, from, from + Window(cfg)) ==>
               s.decisions[i].gen == s.decisions[j].gen
    ensures |Admitted(s, u, from, from + Window(cfg))| <= cfg.maxReqs
  {
    var xs := Admitted(s, u, from, from + Window(cfg));
    var code := map i | i in xs :: s.decisions[i].n - 1;
    forall i | i in xs ensures 0 <= code[i] < cfg.maxReqs { assert DecisionOK(cfg, s, u, s.decisions[i]); }
    InjectiveBound(xs, code, cfg.maxReqs);
  }

  lemma TwoGenerationsBound(cfg: Config, s: State, u: Key, from: int, i0: nat, j0: nat)
    requires cfg.windowSecs > 0 && cfg.maxReqs >= 1 && Inv(cfg, s, u)
    requires i0 in Admitted(s, u, from, from + Window(cfg)) && j0 in Admitted(s, u, from, from + Window(cfg))
    requires s.decisions[i0].gen < s.decisions[j0].gen
    ensures |Admitted(s, u, from, from + Window(cfg))| <= 2 * cfg.maxReqs - 1
  {
    var xs := Admitted(s, u, from, from + Window(cfg));
    var early := s.decisions[i0].gen;
    GenerationsApart(cfg, s, u, i0, j0);
    forall i | i in xs
      ensures s.decisions[i].gen == early || s.decisions[i].gen == early + 1
      ensures 0 <= Place(s.decisions[i], early, cfg.maxReqs) < 2 * cfg.maxReqs - 1
      ensures s.decisions[i].gen == early ==> s.decisions[i].n <= cfg.maxReqs
    {
      GenerationsApart(cfg, s, u, i, j0);
      GenerationsApart(cfg, s, u, i0, i);
      GenerationsApart(cfg, s, u, j0, i);
      GenerationsApart(cfg, s, u, i, i0);
      assert DecisionOK(cfg, s, u, s.decisions[i]);
    }
    var code := map i | i in xs :: Place(s.decisions[i], early, cfg.maxReqs);
    InjectiveBound(xs, code, 2 * cfg.maxReqs - 1);
  }

  lemma StartInv(cfg: Config, u: Key)
    ensures Inv(cfg, START, u)
  {}

  // However the cache calls of all requests interleave, and whichever of them fail, any half-open interval as long as
  // the window admits at most 2 * maxReqs - 1 requests of one user.
  lemma SlidingIntervalBound(cfg: Config, trace: seq<Event>, u: Key, from: int)
    requires cfg.windowSecs > 0 && cfg.maxReqs >= 1 && Legal(cfg, START, trace)
    ensures var ds := Run(cfg, START, trace).decisions;
            |set i: nat | i < |ds| && ds[i].key == u && ds[i].outcome == Allowed
                 && from <= ds[i].t < from + cfg.windowSecs * 1000| <= 2 * cfg.maxReqs - 1
  {
    AdmittedMeans(Run(cfg, START, trace), u, from, from + Window(cfg));
    StartInv(cfg, u);
    RunKeepsInv(cfg, START, trace, u);
    var s := Run(cfg, START, trace);
    var xs := Admitted(s, u, from, from + Window(cfg));
    if i0, j0 :| i0 in xs && j0 in xs && s.decisions[i0].gen < s.decisions[j0].gen {
      TwoGenerationsBound(cfg, s, u, from, i0, j0);
    } else {
      OneGenerationBound(cfg, s, u, from);
    }
  }

  // A limit of zero or less admits nobody.
  lemma NoLimitNoAdmission(cfg: Config, trace: seq<Event>, u: Key, from: int, to: int)
    requires cfg.windowSecs > 0 && cfg.maxReqs <= 0 && Legal(cfg, START, trace)
    ensures Admitted(Run(cfg, START, trace), u, from, to) == {}
  {
    StartInv(cfg, u);
    RunKeepsInv(cfg, START, trace, u);
    var s := Run(cfg, START, trace);
    assert forall i :: 0 <= i < |s.decisions| ==> DecisionOK(cfg, s, u, s.decisions[i]);
  }

  // ---- users do not affect each other ----

  /** The calls made for user u. */
  function Only(trace: seq<Event>, u: Key): seq<Event> {
    if trace == [] then [] else (if trace[0].key == u then [trace[0]] else []) + Only(trace[1..], u)
  }

  function DecisionsOf(ds: seq<Decision>, u: Key): seq<Decision> {
    if ds == [] then []
    else DecisionsOf(ds[..|ds| - 1], u) + (if ds[|ds| - 1].key == u then [ds[|ds| - 1]] else [])
  }

  /** s and s1 agree on everything of u's, and s1 knows of no request that s does not. */
  ghost predicate Agree(s: State, s1: State, u: Key) {
    && SameUser(s, s1, u) && s1.now <= s.now && DecisionsOf(s1.decisions, u) == DecisionsOf(s.decisions, u)
    && (forall r :: r in s1.inflight ==> r in s.inflight && s.inflight[r] == s1.inflight[r])
  }

  lemma DecisionsAppend(ds: seq<Decision>, d: Decision, u: Key)
    ensures DecisionsOf(ds + [d], u) == DecisionsOf(ds, u) + (if d.key == u then [d] else [])
  {
    assert (ds + [d])[..|ds|] == ds;
  }

  lemma OtherCallAgrees(cfg: Config, s: State, s1: State, e: Event, u: Key)
    requires Agree(s, s1, u) && Enabled(s, e) && e.key != u
    requires forall r :: r in s1.inflight ==> s1.inflight[r] == u
    ensures Agree(Apply(cfg, s, e), s1, u)
  {
    var s' := Apply(cfg, s, e);
    OtherUser(cfg, s, e, u);
    if s'.decisions != s.decisions {
      assert s'.decisions == s.decisions + [s'.decisions[|s.decisions|]];
      DecisionsAppend(s.decisions, s'.decisions[|s.decisions|], u);
    }
  }

  lemma SameCount(s: State, s1: State, t: int, u: Key)
    requires SameUser(s, s1, u)
    ensures SameUser(CountRequest(s, t, u), CountRequest(s1, t, u), u)
    ensures CountRequest(s, t, u).cache[u] == CountRequest(s1, t, u).cache[u]
    ensures Last(CountRequest(s, t, u), u) == Last(CountRequest(s1, t, u), u)
  {
    assert Live(s.cache, u, t) == Live(s1.cache, u, t);
  }

  lemma SameExpiry(cfg: Config, s: State, s1: State, t: int, u: Key)
    requires SameUser(s, s1, u)
    ensures SameUser(SetExpiry(cfg, s, t, u), SetExpiry(cfg, s1, t, u), u) && Last(s, u) == Last(s1, u)
  {
    assert Live(s.cache, u, t) == Live(s1.cache, u, t) && Last(s, u) == Last(s1, u);
  }

  lemma SameDecision(s: State, s1: State, d: Decision, u: Key)
    requires SameUser(s, s1, u) && DecisionsOf(s1.decisions, u) == DecisionsOf(s.decisions, u)
    ensures SameUser(Decide(s, d), Decide(s1, d), u)
            && DecisionsOf(Decide(s1, d).decisions, u) == DecisionsOf(Decide(s, d).decisions, u)
  {
    DecisionsAppend(s.decisions, d, u);
    DecisionsAppend(s1.decisions, d, u);
  }

  lemma OwnIncr(cfg: Config, s: State, s1: State, e: Event, u: Key)
    requires SameUser(s, s1, u) && DecisionsOf(s1.decisions, u) == DecisionsOf(s.decisions, u)
    requires Enabled(s, e) && Enabled(s1, e) && e.key == u && e.IncrCall?
    ensures SameUser(Apply(cfg, s, e), Apply(cfg, s1, e), u)
    ensures DecisionsOf(Apply(cfg, s1, e).decisions, u) == DecisionsOf(Apply(cfg, s, e).decisions, u)
  {
    if !e.ok {
      SameDecision(s, s1, Decision(e.t, u, Failed, 0, 0), u);
    } else {
      SameCount(s, s1, e.t, u);
      var c, c1 := CountRequest(s, e.t, u), CountRequest(s1, e.t, u);
      var n := c.cache[u].count;
      if n != 1 { SameDecision(c, c1, Decision(e.t, u, Verdict(cfg, n), Last(c, u), n), u); }
    }
  }

  lemma OwnExpire(cfg: Config, s: State, s1: State, e: Event, u: Key)
    requires SameUser(s, s1, u) && DecisionsOf(s1.decisions, u) == DecisionsOf(s.decisions, u)
    requires Enabled(s, e) && Enabled(s1, e) && e.key == u && e.ExpireCall?
    ensures SameUser(Apply(cfg, s, e), Apply(cfg, s1, e), u)
    ensures DecisionsOf(Apply(cfg, s1, e).decisions, u) == DecisionsOf(Apply(cfg, s, e).decisions, u)
  {
    if e.ok { OwnExpireDone(cfg, s, s1, e, u); } else { OwnExpireFails(cfg, s, s1, e, u); }
  }

  lemma OwnExpireDone(cfg: Config, s: State, s1: State, e: Event, u: Key)
    requires SameUser(s, s1, u) && DecisionsOf(s1.decisions, u) == DecisionsOf(s.decisions, u)
    requires Enabled(s, e) && Enabled(s1, e) && e.key == u && e.ExpireCall? && e.ok
    ensures SameUser(Apply(cfg, s, e), Apply(cfg, s1, e), u)
    ensures DecisionsOf(Apply(cfg, s1, e).decisions, u) == DecisionsOf(Apply(cfg, s, e).decisions, u)
  {
    var d, d1 := s.(inflight := s.inflight - {e.req}), s1.(inflight := s1.inflight - {e.req});
    SameDone(s, s1, e.req, u);
    SameOutcome(cfg, d, d1, e.t, u);
    assert Last(d, u) == Last(s, u) && Last(d1, u) == Last(s1, u);
  }

  lemma OwnExpireFails(cfg: Config, s: State, s1: State, e: Event, u: Key)
    requires SameUser(s, s1, u) && DecisionsOf(s1.decisions, u) == DecisionsOf(s.decisions, u)
    requires Enabled(s, e) && Enabled(s1, e) && e.key == u && e.ExpireCall? && !e.ok
    ensures SameUser(Apply(cfg, s, e), Apply(cfg, s1, e), u)
    ensures DecisionsOf(Apply(cfg, s1, e).decisions, u) == DecisionsOf(Apply(cfg, s, e).decisions, u)
  {
    SameDone(s, s1, e.req, u);
    SameDecision(s.(inflight := s.inflight - {e.req}), s1.(inflight := s1.inflight - {e.req}),
      Decision(e.t, u, Failed, 0, 0), u);
  }

  lemma SameOutcome(cfg: Config, d: State, d1: State, t: int, u: Key)
    requires SameUser(d, d1, u) && DecisionsOf(d1.decisions, u) == DecisionsOf(d.decisions, u)
    ensures Last(d, u) == Last(d1, u)
    ensures var x := Decision(t, u, Verdict(cfg, 1), Last(d, u), 1);
            && SameUser(Decide(SetExpiry(cfg, d, t, u), x), Decide(SetExpiry(cfg, d1, t, u), x), u)
            && DecisionsOf(Decide(SetExpiry(cfg, d1, t, u), x).decisions, u)
                 == DecisionsOf(Decide(SetExpiry(cfg, d, t, u), x).decisions, u)
  {
    SameExpiry(cfg, d, d1, t, u);
    SameDecision(SetExpiry(cfg, d, t, u), SetExpiry(cfg, d1, t, u), Decision(t, u, Verdict(cfg, 1), Last(d, u), 1), u);
  }

  lemma SameDone(s: State, s1: State, req: Req, u: Key)
    requires SameUser(s, s1, u)
    ensures SameUser(s.(inflight := s.inflight - {req}), s1.(inflight := s1.inflight - {req}), u)
  {}

  lemma CallEffects(cfg: Config, s: State, e: Event)
    requires Enabled(s, e)
    ensures Apply(cfg, s, e).now == e.t
    ensures Apply(cfg, s, e).inflight ==
      if e.ExpireCall? then s.inflight - {e.req}
      else if e.ok && Incr(s.cache, e.t, e.key)[e.key].count == 1 then s.inflight[e.req := e.key] else s.inflight
  {}

  lemma SameFirst(s: State, s1: State, t: int, u: Key)
    requires SameUser(s, s1, u)
    ensures Incr(s.cache, t, u)[u] == Incr(s1.cache, t, u)[u]
  {
    assert Live(s.cache, u, t) == Live(s1.cache, u, t);
  }

  lemma OwnCallAgrees(cfg: Config, s: State, s1: State, e: Event, u: Key)
    requires Agree(s, s1, u) && Enabled(s, e) && e.key == u
    requires forall r :: r in s1.inflight ==> s1.inflight[r] == u
    ensures Enabled(s1, e) && Agree(Apply(cfg, s, e), Apply(cfg, s1, e), u)
    ensures forall r :: r in Apply(cfg, s1, e).inflight ==> Apply(cfg, s1, e).inflight[r] == u
  {
    CallEffects(cfg, s, e);
    CallEffects(cfg, s1, e);
    SameFirst(s, s1, e.t, u);
    if e.IncrCall? { OwnIncr(cfg, s, s1, e, u); } else { OwnExpire(cfg, s, s1, e, u); }
  }

  lemma {:induction false} RunAgrees(cfg: Config, s: State, s1: State, trace: seq<Event>, u: Key)
    requires Agree(s, s1, u) && Legal(cfg, s, trace)
    requires forall r :: r in s1.inflight ==> s1.inflight[r] == u
    ensures Legal(cfg, s1, Only(trace, u))
    ensures DecisionsOf(Run(cfg, s1, Only(trace, u)).decisions, u) == DecisionsOf(Run(cfg, s, trace).decisions, u)
    decreases |trace|
  {
    if trace != [] {
      var e, rest := trace[0], trace[1..];
      if e.key == u {
        OwnCallAgrees(cfg, s, s1, e, u);
        RunAgrees(cfg, Apply(cfg, s, e), Apply(cfg, s1, e), rest, u);
        assert Only(trace, u) == [e] + Only(rest, u) && Only(trace, u)[1..] == Only(rest, u);
      } else {
        OtherCallAgrees(cfg, s, s1, e, u);
        RunAgrees(cfg, Apply(cfg, s, e), s1, rest, u);
        assert Only(trace, u) == Only(rest, u);
      }
    }
  }

  // Per-user independence: the outcomes for u in any run over many users are those of the run with u's own calls alone.
  lemma UsersAreIndependent(cfg: Config, trace: seq<Event>, u: Key)
    requires Legal(cfg, START, trace)
    ensures Legal(cfg, START, Only(trace, u))
    ensures DecisionsOf(Run(cfg, START, Only(trace, u)).decisions, u)
            == DecisionsOf(Run(cfg, START, trace).decisions, u)
  {
    RunAgrees(cfg, START, START, trace, u);
  }
}
