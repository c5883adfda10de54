/**
 The fixed-window rate limiter: a Redis counter per key and window, and a
 per-pod in-process fallback, with windows of its own, while Redis does not
 answer. The workspace limiter uses the same scheme with the workspace id as key.
 */
module RateLimit {
  import opened Wrappers

  datatype Config = Config(windowMs: nat, max: nat, degradedMax: nat, production: bool) {
    ghost predicate Valid() {
      windowMs > 0
    }

    // The ceiling while on the in-process fallback.
    function Ceiling(): (n: nat)
      ensures n <= max && (production ==> n <= degradedMax)
      ensures n == max || (production && n == degradedMax)
    {
      if production && degradedMax < max then degradedMax else max
    }

    // EXPIRE takes whole seconds: Math.ceil(windowMs / 1000).
    function TtlMs(): (ms: nat)
      ensures windowMs <= ms < windowMs + 1000
    {
      (windowMs + 999) / 1000 * 1000
    }
  }

  datatype Counter = Counter(count: nat, expiresAt: Option<nat>)

  type Redis = map<(nat, nat), Counter>

  datatype Entry = Entry(count: nat, resetAt: nat)

  type Fallback = map<nat, Entry>

  // What Redis did with the INCR, and with the EXPIRE that follows a count of 1.
  datatype Fate = Served | Down | IncrLost | ExpireLost(took: bool)

  // INCR: an expired key counts from zero again, without an expiry.
  function Incr(redis: Redis, k: (nat, nat), now: nat): Counter {
    if k in redis && (redis[k].expiresAt == None || now < redis[k].expiresAt.value)
    then Counter(redis[k].count + 1, redis[k].expiresAt)
    else Counter(1, None)
  }

  function RedisAfter(c: Config, redis: Redis, k: (nat, nat), now: nat, fate: Fate): Redis {
    var n := Incr(redis, k, now);
    if fate.Down? then redis
    else if n.count == 1 && (fate.Served? || (fate.ExpireLost? && fate.took))
      then redis[k := Counter(1, Some(now + c.TtlMs()))]
    else redis[k := n]
  }

  // The request is decided by Redis: nothing after the INCR failed.
  predicate Answered(redis: Redis, k: (nat, nat), now: nat, fate: Fate) {
    fate.Served? || (fate.ExpireLost? && Incr(redis, k, now).count != 1)
  }

  function FallbackEntry(c: Config, fallback: Fallback, key: nat, now: nat): Entry {
    if key in fallback && now < fallback[key].resetAt
    then Entry(fallback[key].count + 1, fallback[key].resetAt)
    else Entry(1, now + c.windowMs)
  }

  function Pruned(fallback: Fallback, now: nat): Fallback {
    map k | k in fallback && now < fallback[k].resetAt :: fallback[k]
  }

  // ---- The limiter as an object --------------------------------------------------

  class RedisStore {
    var counters: Redis

    constructor ()
      ensures counters == map[]
    {
      counters := map[];
    }
  }

  class Limiter {
    const config: Config
    var fallback: Fallback

    constructor (config: Config)
      ensures this.config == config && fallback == map[]
    {
      this.config, fallback := config, map[];
    }

    // `remaining` and `resetAt` are the response headers.
    method Handle(redis: RedisStore, key: nat, now: nat, fate: Fate)
    returns (admitted: bool, limit: nat, remaining: nat, resetAt: nat)
      requires config.Valid()
      modifies this`fallback, redis
      ensures var k := (key, now / config.windowMs);
              && redis.counters == RedisAfter(config, old(redis.counters), k, now, fate)
              && (if Answered(old(redis.counters), k, now, fate) then
                    var n := Incr(old(redis.counters), k, now);
                    && fallback == old(fallback)
                    && limit == config.max && (admitted <==> n.count <= limit)
                    && remaining == (if n.count <= limit then limit - n.count else 0)
                    && resetAt == (now / config.windowMs + 1) * config.windowMs
                  else
                    var e := FallbackEntry(config, old(fallback), key, now);
                    && fallback == old(fallback)[key := e]
                    && limit == config.Ceiling() && (admitted <==> e.count <= limit)
                    && remaining == (if e.count <= limit then limit - e.count else 0)
                    && resetAt == e.resetAt)
    {
      var window := now / config.windowMs;
      var k := (key, window);
      var n := Incr(redis.counters, k, now);
      var answered := Answered(redis.counters, k, now, fate);
      redis.counters := RedisAfter(config, redis.counters, k, now, fate);
      var count: nat;
      limit := config.max;
      if answered {
        count, resetAt := n.count, (window + 1) * config.windowMs;
      } else {
        limit := config.Ceiling();
        if key !in fallback || fallback[key].resetAt <= now {
          fallback := fallback[key := Entry(0, now + config.windowMs)];
        }
        fallback := fallback[key := fallback[key].(count := fallback[key].count + 1)];
        count, resetAt := fallback[key].count, fallback[key].resetAt;
      }
      remaining := if limit < count then 0 else limit - count;
      admitted := count <= limit;
    }

    // The pruner's loop over the map.
    method Prune(now: nat)
      modifies this`fallback
      ensures fallback == Pruned(old(fallback), now)
      ensures forall k :: k in fallback <==> k in old(fallback) && now < old(fallback)[k].resetAt
      ensures forall k :: k in fallback ==> fallback[k] == old(fallback)[k]
    {
      var keys := fallback.Keys;
      while keys != {}
        invariant keys <= fallback.Keys <= old(fallback).Keys
        invariant forall k :: k in fallback ==> fallback[k] == old(fallback)[k]
        invariant forall k :: k in fallback && k !in keys ==> now < fallback[k].resetAt
        invariant forall k :: k in old(fallback) && now < old(fallback)[k].resetAt ==> k in fallback
        decreases keys
      {
        var k :| k in keys;
        keys := keys - {k};
        if fallback[k].resetAt <= now {
          fallback := fallback - {k};
        }
      }
    }
  }

  // ---- Runs over many pods ---------------------------------------------------------

  datatype Via = ByRedis(window: nat) | ByFallback(pod: nat, until: nat)

  datatype Admission = Admission(key: nat, at: nat, via: Via)

  datatype State = State(now: nat, redis: Redis, pods: map<nat, Fallback>, log: Run<Admission>)

  datatype Label =
    | Request(pod: nat, key: nat, at: nat, fate: Fate)
    | Prune(pod: nat, at: nat)

  const INIT := State(0, map[], map[], Start)

  function PodOf(s: State, pod: nat): Fallback {
    if pod in s.pods then s.pods[pod] else map[]
  }

  function Admit(s: State, yes: bool, a: Admission): Run<Admission> {
    if yes then Then(s.log, a) else s.log
  }

  function DoRequest(c: Config, s: State, pod: nat, key: nat, at: nat, fate: Fate): State
    requires c.Valid()
  {
    var k := (key, at / c.windowMs);
    var redis' := RedisAfter(c, s.redis, k, at, fate);
    if Answered(s.redis, k, at, fate) then
      State(at, redis', s.pods, Admit(s, Incr(s.redis, k, at).count <= c.max,
                  Admission(key, at, ByRedis(at / c.windowMs))))
    else
      var e := FallbackEntry(c, PodOf(s, pod), key, at);
      State(at, redis', s.pods[pod := PodOf(s, pod)[key := e]],
        Admit(s, e.count <= c.Ceiling(), Admission(key, at, ByFallback(pod, e.resetAt))))
  }

  predicate Enabled(s: State, l: Label) {
    s.now <= l.at
  }

  function Do(c: Config, s: State, l: Label): State
    requires c.Valid()
  {
    match l
    case Request(pod, key, at, fate) => DoRequest(c, s, pod, key, at, fate)
    case Prune(pod, at) => s.(now := at, pods := s.pods[pod := Pruned(PodOf(s, pod), at)])
  }

  // Times never go back; None for a run in which they do.
  function Exec(c: Config, run: Run<Label>): Option<State>
    requires c.Valid()
  {
    match run
    case Start => Some(INIT)
    case Then(before, l) =>
      var s := Exec(c, before);
      if s.Some? && Enabled(s.value, l) then Some(Do(c, s.value, l)) else None
  }

  // ---- Each window admits at most its ceiling ------------------------------------------

  function Count(log: Run<Admission>, key: nat, via: Via): nat {
    match log
    case Start => 0
    case Then(before, a) => Count(before, key, via) + if a.key == key && a.via == via then 1 else 0
  }

  function Entries(log: Run<Admission>): set<Admission> {
    match log
    case Start => {}
    case Then(before, a) => Entries(before) + {a}
  }

  lemma {:induction false} CountedIsEntry(log: Run<Admission>, key: nat, via: Via)
    requires Count(log, key, via) > 0
    ensures exists a :: a in Entries(log) && a.key == key && a.via == via
  {
    if log.last.key == key && log.last.via == via {
      assert log.last in Entries(log);
    } else {
      CountedIsEntry(log.before, key, via);
      var a :| a in Entries(log.before) && a.key == key && a.via == via;
      assert a in Entries(log);
    }
  }

  // The counter of the current window, if any, outlives the window.
  predicate Lasts(c: Config, s: State, k: (nat, nat))
    requires c.Valid()
  {
    k in s.redis ==> s.redis[k].expiresAt == None || (k.1 + 1) * c.windowMs <= s.redis[k].expiresAt.value
  }

  // Redis admissions of a window never exceed its counter while it is current.
  ghost predicate RedisOk(c: Config, s: State, key: nat, window: nat)
    requires c.Valid()
  {
    && Lasts(c, s, (key, window))
    && Count(s.log, key, ByRedis(window)) <= c.max
    && (s.now / c.windowMs <= window ==>
          Count(s.log, key, ByRedis(window)) <= if (key, window) in s.redis then s.redis[(key, window)].count else 0)
  }

  // The fallback window (pod, until) of a key: its admissions never exceed the
  // entry's count while it is open.
  ghost predicate FallbackOk(c: Config, s: State, key: nat, pod: nat, until: nat) {
    && Count(s.log, key, ByFallback(pod, until)) <= c.Ceiling()
    && (s.now < until && Count(s.log, key, ByFallback(pod, until)) > 0 ==>
          var f := PodOf(s, pod);
          key in f && f[key].resetAt == until && Count(s.log, key, ByFallback(pod, until)) <= f[key].count)
  }

  // Where an admission lies, and that two fallback windows of a pod never overlap.
  ghost predicate EntryOk(c: Config, s: State, a: Admission)
    requires c.Valid()
  {
    a.at <= s.now &&
    match a.via
    case ByRedis(window) => a.at / c.windowMs == window
    case ByFallback(pod, until) =>
      && a.at < until <= a.at + c.windowMs
      && (a.key in PodOf(s, pod) ==>
            until == PodOf(s, pod)[a.key].resetAt || until + c.windowMs <= PodOf(s, pod)[a.key].resetAt)
  }

  predicate Apart(c: Config, a: Admission, b: Admission) {
    a.key == b.key && a.via.ByFallback? && b.via.ByFallback? && a.via.pod == b.via.pod && a.via.until < b.via.until ==>
      a.via.until + c.windowMs <= b.via.until
  }

  ghost predicate Inv(c: Config, s: State)
    requires c.Valid()
  {
    && (forall key, window :: RedisOk(c, s, key, window))
    && (forall key, pod, until :: FallbackOk(c, s, key, pod, until))
    && (forall a :: a in Entries(s.log) ==> EntryOk(c, s, a))
    && (forall a, b :: a in Entries(s.log) && b in Entries(s.log) ==> Apart(c, a, b))
    && (forall pod, key :: OpenedBy(c, s, pod, key))
  }

  // A fallback window was opened no later than now.
  predicate OpenedBy(c: Config, s: State, pod: nat, key: nat) {
    key in PodOf(s, pod) ==> PodOf(s, pod)[key].resetAt <= s.now + c.windowMs
  }

  lemma ScaleMonotone(x: nat, y: nat, w: nat)
    requires x <= y
    ensures x * w <= y * w
  {
  }

  lemma WindowBounds(c: Config, at: nat)
    requires c.Valid()
    ensures at / c.windowMs * c.windowMs <= at < (at / c.windowMs + 1) * c.windowMs
    ensures (at / c.windowMs + 1) * c.windowMs <= at + c.windowMs
  {
  }

  lemma {:induction false} WindowMonotone(c: Config, a: nat, b: nat)
    requires c.Valid() && a <= b
    ensures a / c.windowMs <= b / c.windowMs
  {
    if b / c.windowMs < a / c.windowMs {
      WindowBounds(c, a);
      WindowBounds(c, b);
      ScaleMonotone(b / c.windowMs + 1, a / c.windowMs, c.windowMs);
    }
  }

  // A counter that is still needed has not expired: expiry never resets a live window.
  lemma CounterIsLive(c: Config, s: State, key: nat, at: nat)
    requires c.Valid() && RedisOk(c, s, key, at / c.windowMs)
    ensures var k := (key, at / c.windowMs);
            Incr(s.redis, k, at).count == (if k in s.redis then s.redis[k].count else 0) + 1
  {
    WindowBounds(c, at);
  }

  // A request of the key in the window moves its counter and, at most, its admissions by one.
  lemma {:induction false} RedisOkHere(c: Config, s: State, l: Label)
    requires c.Valid() && Enabled(s, l) && l.Request? && RedisOk(c, s, l.key, l.at / c.windowMs)
    ensures RedisOk(c, Do(c, s, l), l.key, l.at / c.windowMs)
  {
    WindowMonotone(c, s.now, l.at);
    CounterIsLive(c, s, l.key, l.at);
    WindowBounds(c, l.at);
  }

  lemma {:induction false} RedisOkRequest(c: Config, s: State, l: Label, key: nat, window: nat)
    requires c.Valid() && Enabled(s, l) && l.Request?
    requires RedisOk(c, s, key, window)
    ensures RedisOk(c, Do(c, s, l), key, window)
  {
    if key == l.key && window == l.at / c.windowMs {
      RedisOkHere(c, s, l);
    } else {
      WindowMonotone(c, s.now, l.at);
      assert (key, window) in Do(c, s, l).redis <==> (key, window) in s.redis;
    }
  }

  lemma FallbackOkRequest(c: Config, s: State, l: Label, key: nat, pod: nat, until: nat)
    requires c.Valid() && Enabled(s, l) && l.Request?
    requires FallbackOk(c, s, key, pod, until)
    requires forall a :: a in Entries(s.log) ==> EntryOk(c, s, a)
    ensures FallbackOk(c, Do(c, s, l), key, pod, until)
  {
    var s' := DoRequest(c, s, l.pod, l.key, l.at, l.fate);
    if key == l.key && pod == l.pod && !Answered(s.redis, (l.key, l.at / c.windowMs), l.at, l.fate) {
      var e := FallbackEntry(c, PodOf(s, pod), key, l.at);
      if until == e.resetAt && Count(s.log, key, ByFallback(pod, until)) > 0 {
        CountedIsEntry(s.log, key, ByFallback(pod, until));
        var a :| a in Entries(s.log) && a.key == key && a.via == ByFallback(pod, until);
        assert EntryOk(c, s, a);
      }
    }
  }

  // A fallback window is opened only when the key's previous one is over.
  lemma EntryOver(c: Config, s: State, a: Admission, at: nat)
    requires c.Valid() && Inv(c, s) && s.now <= at && a in Entries(s.log) && a.via.ByFallback?
    ensures var f := PodOf(s, a.via.pod);
            a.via.until <= at || (a.key in f && a.via.until == f[a.key].resetAt)
  {
    assert FallbackOk(c, s, a.key, a.via.pod, a.via.until);
    EntryIsCounted(s.log, a);
  }

  lemma EntryOkRequest(c: Config, s: State, l: Label, a: Admission)
    requires c.Valid() && Enabled(s, l) && l.Request? && Inv(c, s) && a in Entries(s.log)
    ensures EntryOk(c, Do(c, s, l), a)
  {
    assert EntryOk(c, s, a);
    if a.via.ByFallback? {
      EntryOver(c, s, a, l.at);
    }
  }

  lemma NewEntryOk(c: Config, s: State, l: Label)
    requires c.Valid() && Enabled(s, l) && l.Request? && Inv(c, s) && Do(c, s, l).log != s.log
    ensures EntryOk(c, Do(c, s, l), Do(c, s, l).log.last)
    ensures forall b :: b in Entries(s.log) ==> Apart(c, b, Do(c, s, l).log.last) && Apart(c, Do(c, s, l).log.last, b)
  {
    var a := Do(c, s, l).log.last;
    assert OpenedBy(c, s, l.pod, l.key);
    forall b | b in Entries(s.log)
      ensures Apart(c, b, a) && Apart(c, a, b)
    {
      assert EntryOk(c, s, b);
      if b.via.ByFallback? {
        EntryOver(c, s, b, l.at);
      }
    }
  }

  lemma InvRequest(c: Config, s: State, l: Label)
    requires c.Valid() && Enabled(s, l) && l.Request? && Inv(c, s)
    ensures Inv(c, Do(c, s, l))
  {
    var s' := Do(c, s, l);
    forall key, window
      ensures RedisOk(c, s', key, window)
    {
      RedisOkRequest(c, s, l, key, window);
    }
    forall key, pod, until
      ensures FallbackOk(c, s', key, pod, until)
    {
      FallbackOkRequest(c, s, l, key, pod, until);
    }
    forall a | a in Entries(s'.log)
      ensures EntryOk(c, s', a)
    {
      if a in Entries(s.log) { EntryOkRequest(c, s, l, a); } else { NewEntryOk(c, s, l); }
    }
    forall a, b | a in Entries(s'.log) && b in Entries(s'.log)
      ensures Apart(c, a, b)
    {
      if s'.log != s.log { NewEntryOk(c, s, l); }
    }
    forall pod, key
      ensures OpenedBy(c, s', pod, key)
    {
      assert OpenedBy(c, s, pod, key);
    }
  }

  lemma InvPrune(c: Config, s: State, l: Label)
    requires c.Valid() && Enabled(s, l) && l.Prune? && Inv(c, s)
    ensures Inv(c, Do(c, s, l))
  {
    var s' := Do(c, s, l);
    WindowMonotone(c, s.now, l.at);
    forall key, window
      ensures RedisOk(c, s', key, window)
    {
      assert RedisOk(c, s, key, window);
    }
    forall key, pod, until
      ensures FallbackOk(c, s', key, pod, until)
    {
      assert FallbackOk(c, s, key, pod, until);
    }
    forall a | a in Entries(s'.log)
      ensures EntryOk(c, s', a)
    {
      assert EntryOk(c, s, a);
    }
    forall pod, key
      ensures OpenedBy(c, s', pod, key)
    {
      assert OpenedBy(c, s, pod, key);
    }
  }

  lemma {:induction false} RunKeepsInv(c: Config, run: Run<Label>)
    requires c.Valid() && Exec(c, run).Some?
    ensures Inv(c, Exec(c, run).value)
  {
    if run.Then? {
      RunKeepsInv(c, run.before);
      var s := Exec(c, run.before).value;
      if run.last.Request? { InvRequest(c, s, run.last); } else { InvPrune(c, s, run.last); }
    }
  }

  lemma {:induction false} EntryIsCounted(log: Run<Admission>, a: Admission)
    requires a in Entries(log)
    ensures Count(log, a.key, a.via) > 0
  {
    if a in Entries(log.before) {
      EntryIsCounted(log.before, a);
    }
  }

  // ---- The sliding-interval bound ---------------------------------------------------------

  // The admissions of `key` in the half-open interval [from, from + windowMs).
  predicate Within(c: Config, a: Admission, key: nat, from: nat) {
    a.key == key && from <= a.at < from + c.windowMs
  }

  function Admitted(c: Config, log: Run<Admission>, key: nat, from: nat): nat {
    match log
    case Start => 0
    case Then(before, a) => Admitted(c, before, key, from) + if Within(c, a, key, from) then 1 else 0
  }

  // An interval of one window's length meets at most two windows of each kind:
  // the one that is open at `from`, and one opened later.
  datatype Side = RedisFirst | RedisSecond | OpenAt(pod: nat) | OpenedIn(pod: nat)

  function SideOf(c: Config, a: Admission, from: nat): Side
    requires c.Valid()
  {
    match a.via
    case ByRedis(window) => if window == from / c.windowMs then RedisFirst else RedisSecond
    case ByFallback(pod, until) => if until <= from + c.windowMs then OpenAt(pod) else OpenedIn(pod)
  }

  function OnSide(c: Config, log: Run<Admission>, key: nat, from: nat, side: Side): nat
    requires c.Valid()
  {
    match log
    case Start => 0
    case Then(before, a) =>
      OnSide(c, before, key, from, side) + if Within(c, a, key, from) && SideOf(c, a, from) == side then 1 else 0
  }

  function OnPods(c: Config, log: Run<Admission>, key: nat, from: nat, pods: nat): nat
    requires c.Valid()
  {
    if pods == 0 then 0
    else OnPods(c, log, key, from, pods - 1)
         + OnSide(c, log, key, from, OpenAt(pods - 1)) + OnSide(c, log, key, from, OpenedIn(pods - 1))
  }

  ghost predicate FewPods(log: Run<Admission>, pods: nat) {
    forall a :: a in Entries(log) && a.via.ByFallback? ==> a.via.pod < pods
  }

  lemma {:induction false} OnPodsThen(c: Config, log: Run<Admission>, key: nat, from: nat, pods: nat)
    requires c.Valid() && log.Then?
    ensures OnPods(c, log, key, from, pods) == OnPods(c, log.before, key, from, pods) +
              if Within(c, log.last, key, from) && log.last.via.ByFallback? && log.last.via.pod < pods then 1 else 0
  {
    if pods > 0 {
      OnPodsThen(c, log, key, from, pods - 1);
    }
  }

  lemma {:induction false} SidesAddUp(c: Config, log: Run<Admission>, key: nat, from: nat, pods: nat)
    requires c.Valid() && FewPods(log, pods)
    ensures Admitted(c, log, key, from) ==
              OnSide(c, log, key, from, RedisFirst) + OnSide(c, log, key, from, RedisSecond)
                + OnPods(c, log, key, from, pods)
  {
    if log.Then? {
      assert log.last in Entries(log);
      SidesAddUp(c, log.before, key, from, pods);
      OnPodsThen(c, log, key, from, pods);
    } else {
      NothingOnPods(c, key, from, pods);
    }
  }

  lemma {:induction false} NothingOnPods(c: Config, key: nat, from: nat, pods: nat)
    requires c.Valid()
    ensures OnPods(c, Start, key, from, pods) == 0
  {
    if pods > 0 {
      NothingOnPods(c, key, from, pods - 1);
    }
  }

  lemma {:induction false} SideWithinWindow(c: Config, log: Run<Admission>, key: nat, from: nat, side: Side, via: Via)
    requires c.Valid()
    requires forall a :: a in Entries(log) && Within(c, a, key, from) && SideOf(c, a, from) == side ==> a.via == via
    ensures OnSide(c, log, key, from, side) <= Count(log, key, via)
  {
    if log.Then? {
      assert log.last in Entries(log);
      SideWithinWindow(c, log.before, key, from, side, via);
    }
  }

  lemma {:induction false} SideHasEntry(c: Config, log: Run<Admission>, key: nat, from: nat, side: Side)
    returns (a: Admission)
    requires c.Valid() && OnSide(c, log, key, from, side) > 0
    ensures a in Entries(log) && Within(c, a, key, from) && SideOf(c, a, from) == side
  {
    if Within(c, log.last, key, from) && SideOf(c, log.last, from) == side {
      a := log.last;
    } else {
      a := SideHasEntry(c, log.before, key, from, side);
    }
  }

  // Two admissions of one interval on the same side belong to the same window.
  lemma SameSideSameWindow(c: Config, s: State, key: nat, from: nat, a: Admission, b: Admission)
    requires c.Valid() && Inv(c, s) && a in Entries(s.log) && b in Entries(s.log)
    requires Within(c, a, key, from) && Within(c, b, key, from) && SideOf(c, a, from) == SideOf(c, b, from)
    ensures a.via == b.via
  {
    assert EntryOk(c, s, a) && EntryOk(c, s, b) && Apart(c, a, b) && Apart(c, b, a);
    if a.via.ByRedis? && a.via.window != from / c.windowMs {
      SecondWindow(c, from, a.at);
      SecondWindow(c, from, b.at);
    }
  }

  lemma {:induction false} SecondWindow(c: Config, from: nat, at: nat)
    requires c.Valid() && from <= at < from + c.windowMs && at / c.windowMs != from / c.windowMs
    ensures at / c.windowMs == from / c.windowMs + 1
  {
    WindowMonotone(c, from, at);
    WindowBounds(c, from);
    WindowBounds(c, at);
    if from / c.windowMs + 2 <= at / c.windowMs {
      ScaleMonotone(from / c.windowMs + 2, at / c.windowMs, c.windowMs);
    }
  }

  lemma SideBound(c: Config, s: State, key: nat, from: nat, side: Side)
    requires c.Valid() && Inv(c, s)
    ensures OnSide(c, s.log, key, from, side) <= if side.RedisFirst? || side.RedisSecond? then c.max else c.Ceiling()
  {
    if OnSide(c, s.log, key, from, side) > 0 {
      var a := SideHasEntry(c, s.log, key, from, side);
      forall b | b in Entries(s.log) && Within(c, b, key, from) && SideOf(c, b, from) == side
        ensures b.via == a.via
      {
        SameSideSameWindow(c, s, key, from, a, b);
      }
      SideWithinWindow(c, s.log, key, from, side, a.via);
      match a.via
      case ByRedis(window) => assert RedisOk(c, s, key, window);
      case ByFallback(pod, until) => assert FallbackOk(c, s, key, pod, until);
    }
  }

  lemma OneMorePod(pods: nat, ceiling: nat)
    ensures 2 * (pods + 1) * ceiling == 2 * pods * ceiling + 2 * ceiling
  {
  }

  lemma {:induction false} PodsBound(c: Config, s: State, key: nat, from: nat, pods: nat)
    requires c.Valid() && Inv(c, s)
    ensures OnPods(c, s.log, key, from, pods) <= 2 * pods * c.Ceiling()
  {
    if pods > 0 {
      PodsBound(c, s, key, from, pods - 1);
      SideBound(c, s, key, from, OpenAt(pods - 1));
      SideBound(c, s, key, from, OpenedIn(pods - 1));
      OneMorePod(pods - 1, c.Ceiling());
    }
  }

  // The requests of a run reach at most this many pods.
  predicate Spread(run: Run<Label>, pods: nat) {
    run.Then? ==> Spread(run.before, pods) && (run.last.Request? ==> run.last.pod < pods)
  }

  lemma {:induction false} SpreadMeansFewPods(c: Config, run: Run<Label>, pods: nat)
    requires c.Valid() && Exec(c, run).Some? && Spread(run, pods)
    ensures FewPods(Exec(c, run).value.log, pods)
  {
    if run.Then? {
      SpreadMeansFewPods(c, run.before, pods);
    }
  }

  // Whatever Redis does and however requests are spread over the pods, a key is
  // admitted at most 2 * max + 2 * pods * ceiling times in any interval of one
  // window's length.
  lemma {:induction false} SlidingBound(c: Config, run: Run<Label>, key: nat, from: nat, pods: nat)
    requires c.Valid() && Exec(c, run).Some? && Spread(run, pods)
    ensures Admitted(c, Exec(c, run).value.log, key, from) <= 2 * c.max + 2 * pods * c.Ceiling()
  {
    RunKeepsInv(c, run);
    SpreadMeansFewPods(c, run, pods);
    var s := Exec(c, run).value;
    SidesAddUp(c, s.log, key, from, pods);
    SideBound(c, s, key, from, RedisFirst);
    SideBound(c, s, key, from, RedisSecond);
    PodsBound(c, s, key, from, pods);
  }

  // ---- The pruner changes no decision ---------------------------------------------------------

  function Unpruned(run: Run<Label>): Run<Label> {
    match run
    case Start => Start
    case Then(before, l) => if l.Prune? then Unpruned(before) else Then(Unpruned(before), l)
  }

  // Equal up to fallback entries that are over.
  ghost predicate Alike(s: State, t: State) {
    && t.now <= s.now && s.redis == t.redis && s.log == t.log
    && forall pod, key :: EntryAlike(PodOf(s, pod), PodOf(t, pod), key, s.now)
  }

  predicate EntryAlike(f: Fallback, g: Fallback, key: nat, now: nat) {
    || (key in f && key in g && f[key] == g[key])
    || ((key in f ==> f[key].resetAt <= now) && (key in g ==> g[key].resetAt <= now))
  }

  lemma AlikeElsewhere(s: State, t: State, pod: nat, at: nat)
    requires Alike(s, t) && s.now <= at
    ensures forall key :: EntryAlike(PodOf(s, pod), PodOf(t, pod), key, at)
  {
    forall key ensures EntryAlike(PodOf(s, pod), PodOf(t, pod), key, at) {
      assert EntryAlike(PodOf(s, pod), PodOf(t, pod), key, s.now);
    }
  }

  // The two states open or join the same fallback window, and so decide alike.
  lemma AlikeEntry(c: Config, s: State, t: State, pod: nat, key: nat, at: nat)
    requires Alike(s, t) && s.now <= at
    ensures FallbackEntry(c, PodOf(s, pod), key, at) == FallbackEntry(c, PodOf(t, pod), key, at)
  {
    AlikeElsewhere(s, t, pod, at);
    assert EntryAlike(PodOf(s, pod), PodOf(t, pod), key, at);
  }

  lemma AlikeRequest(c: Config, s: State, t: State, l: Label)
    requires c.Valid() && Alike(s, t) && Enabled(s, l) && l.Request?
    ensures Alike(Do(c, s, l), Do(c, t, l))
  {
    var s', t' := Do(c, s, l), Do(c, t, l);
    AlikeEntry(c, s, t, l.pod, l.key, l.at);
    forall pod, key
      ensures EntryAlike(PodOf(s', pod), PodOf(t', pod), key, s'.now)
    {
      AlikeElsewhere(s, t, pod, l.at);
      assert EntryAlike(PodOf(s, pod), PodOf(t, pod), key, l.at);
    }
  }

  lemma {:induction false} PruningChangesNothing(c: Config, run: Run<Label>)
    requires c.Valid() && Exec(c, run).Some?
    ensures Exec(c, Unpruned(run)).Some? && Exec(c, Unpruned(run)).value.log == Exec(c, run).value.log
    ensures Alike(Exec(c, run).value, Exec(c, Unpruned(run)).value)
  {
    if run.Then? {
      PruningChangesNothing(c, run.before);
      var s, t := Exec(c, run.before).value, Exec(c, Unpruned(run.before)).value;
      if run.last.Request? {
        AlikeRequest(c, s, t, run.last);
      } else {
        var s' := Do(c, s, run.last);
        forall pod, key
          ensures EntryAlike(PodOf(s', pod), PodOf(t, pod), key, s'.now)
        {
          assert EntryAlike(PodOf(s, pod), PodOf(t, pod), key, s.now);
        }
      }
    }
  }
}
