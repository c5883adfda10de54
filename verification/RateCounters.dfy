/**
 What the limiter's counters count. Every definition here reads only the requests
 of a run: which of them Redis counted, which fell back to the pod, and where the
 fallback window of a request begins. A request is refused exactly when the
 ceiling has been counted before it.
 */
module RateCounters {
  import opened Wrappers
  import opened RateLimit

  // The requests of a key in a window whose INCR Redis took.
  function Incrs(c: Config, run: Run<Label>, key: nat, window: nat): nat
    requires c.Valid()
  {
    match run
    case Start => 0
    case Then(before, l) =>
      Incrs(c, before, key, window) +
      if l.Request? && l.key == key && l.at / c.windowMs == window && !l.fate.Down? then 1 else 0
  }

  // The request is decided in process: Redis failed it, or failed the EXPIRE due
  // after the window's first INCR.
  predicate FallsBack(c: Config, before: Run<Label>, l: Label)
    requires c.Valid()
  {
    l.Request? && !l.fate.Served? && (l.fate.ExpireLost? ==> Incrs(c, before, l.key, l.at / c.windowMs) == 0)
  }

  predicate IsHit(c: Config, before: Run<Label>, l: Label, key: nat, pod: nat)
    requires c.Valid()
  {
    FallsBack(c, before, l) && l.key == key && l.pod == pod
  }

  // The requests of a key that fell back to the pod, from a time on.
  function Hits(c: Config, run: Run<Label>, key: nat, pod: nat, from: int): nat
    requires c.Valid()
  {
    match run
    case Start => 0
    case Then(before, l) =>
      Hits(c, before, key, pod, from) + if IsHit(c, before, l, key, pod) && from <= l.at then 1 else 0
  }

  // Where the fallback window of a request at `at` begins: where the last one
  // began, if that is not over, and at the request itself otherwise.
  function Opening(c: Config, run: Run<Label>, key: nat, pod: nat, at: nat): nat
    requires c.Valid()
  {
    match run
    case Start => at
    case Then(before, l) =>
      if IsHit(c, before, l, key, pod) then
        var start := Opening(c, before, key, pod, l.at);
        if at < start + c.windowMs then start else at
      else Opening(c, before, key, pod, at)
  }

  // ---- The Redis counter ------------------------------------------------------------

  predicate CounterIs(s: State, key: nat, window: nat, n: nat) {
    n == if (key, window) in s.redis then s.redis[(key, window)].count else 0
  }

  // The counter of a window is the number of INCRs taken for it.
  lemma {:induction false} CounterCountsIncrs(c: Config, run: Run<Label>, key: nat, window: nat)
    requires c.Valid() && Exec(c, run).Some?
    ensures CounterIs(Exec(c, run).value, key, window, Incrs(c, run, key, window))
  {
    if run.Then? {
      CounterCountsIncrs(c, run.before, key, window);
      RunKeepsInv(c, run.before);
      var s := Exec(c, run.before).value;
      if run.last.Request? {
        CounterStep(c, s, run.last, key, window, Incrs(c, run.before, key, window));
      }
    }
  }

  lemma {:induction false} CounterStep(c: Config, s: State, l: Label, key: nat, window: nat, n: nat)
    requires c.Valid() && Enabled(s, l) && l.Request? && Inv(c, s) && CounterIs(s, key, window, n)
    ensures CounterIs(Do(c, s, l), key, window,
              n + if l.key == key && l.at / c.windowMs == window && !l.fate.Down? then 1 else 0)
  {
    if l.key == key && l.at / c.windowMs == window {
      assert RedisOk(c, s, key, window);
      CounterIsLive(c, s, key, l.at);
    }
  }

  lemma {:induction false} AnsweredIff(c: Config, run: Run<Label>, l: Label)
    requires c.Valid() && Exec(c, run).Some? && l.Request?
    ensures Answered(Exec(c, run).value.redis, (l.key, l.at / c.windowMs), l.at, l.fate) <==> !FallsBack(c, run, l)
    ensures Incr(Exec(c, run).value.redis, (l.key, l.at / c.windowMs), l.at).count
         == Incrs(c, run, l.key, l.at / c.windowMs) + 1
  {
    var s, window := Exec(c, run).value, l.at / c.windowMs;
    RunKeepsInv(c, run);
    CounterCountsIncrs(c, run, l.key, window);
    assert RedisOk(c, s, l.key, window);
    CounterIsLive(c, s, l.key, l.at);
  }

  // Without an outage every counter expires, a second at most later than one window's
  // length after its window's first request.
  predicate Expires(c: Config, k: (nat, nat), counter: Counter)
    requires c.Valid()
  {
    counter.expiresAt.Some? && k.1 * c.windowMs + c.windowMs <= counter.expiresAt.value
    && counter.expiresAt.value < (k.1 + 1) * c.windowMs + c.windowMs + 1000
  }

  predicate NoOutage(run: Run<Label>) {
    run.Then? ==> NoOutage(run.before) && (run.last.Request? ==> run.last.fate.Served?)
  }

  lemma {:induction false} CountersExpire(c: Config, run: Run<Label>, k: (nat, nat))
    requires c.Valid() && Exec(c, run).Some? && NoOutage(run) && k in Exec(c, run).value.redis
    ensures Expires(c, k, Exec(c, run).value.redis[k])
  {
    var s, l := Exec(c, run.before).value, run.last;
    if k in s.redis {
      CountersExpire(c, run.before, k);
    }
    if l.Request? && k == (l.key, l.at / c.windowMs) {
      RunKeepsInv(c, run.before);
      assert RedisOk(c, s, l.key, k.1);
      CounterIsLive(c, s, l.key, l.at);
      WindowBounds(c, l.at);
    }
  }

  // ---- The fallback entry ------------------------------------------------------------

  predicate Running(f: Fallback, key: nat, at: nat) {
    key in f && at < f[key].resetAt
  }

  // The entry of a key, if its window is open at `at`, says where the window begins.
  predicate OpeningIs(c: Config, f: Fallback, key: nat, at: nat, opening: int) {
    opening == if Running(f, key, at) then f[key].resetAt - c.windowMs else at
  }

  lemma {:induction false} EntrySaysOpening(c: Config, run: Run<Label>, key: nat, pod: nat, at: nat)
    requires c.Valid() && Exec(c, run).Some? && Exec(c, run).value.now <= at
    ensures OpeningIs(c, PodOf(Exec(c, run).value, pod), key, at, Opening(c, run, key, pod, at))
  {
    if run.Then? {
      var s, l := Exec(c, run.before).value, run.last;
      EntrySaysOpening(c, run.before, key, pod, at);
      EntrySaysOpening(c, run.before, key, pod, l.at);
      if l.Request? {
        AnsweredIff(c, run.before, l);
      }
    }
  }

  lemma {:induction false} NoneAhead(c: Config, run: Run<Label>, key: nat, pod: nat, from: int)
    requires c.Valid() && Exec(c, run).Some? && Exec(c, run).value.now < from
    ensures Hits(c, run, key, pod, from) == 0
  {
    if run.Then? {
      NoneAhead(c, run.before, key, pod, from);
    }
  }

  // The entry's count is the number of hits since its window began.
  predicate EntryIs(f: Fallback, key: nat, n: nat) {
    key in f ==> f[key].count == n
  }

  function Began(c: Config, f: Fallback, key: nat, otherwise: int): int {
    if key in f then f[key].resetAt - c.windowMs else otherwise
  }

  lemma {:induction false} NoHitUnlessRunning(c: Config, run: Run<Label>, key: nat, pod: nat, at: nat)
    requires c.Valid() && Exec(c, run).Some? && Exec(c, run).value.now <= at
    requires !Running(PodOf(Exec(c, run).value, pod), key, at)
    ensures Hits(c, run, key, pod, at) == 0
  {
    if Exec(c, run).value.now < at {
      NoneAhead(c, run, key, pod, at);
    } else if run.Then? {
      var s, l := Exec(c, run.before).value, run.last;
      if l.Request? {
        AnsweredIff(c, run.before, l);
      }
      NoHitUnlessRunning(c, run.before, key, pod, at);
    }
  }

  lemma {:induction false} EntryCountsHits(c: Config, run: Run<Label>, key: nat, pod: nat)
    requires c.Valid() && Exec(c, run).Some?
    ensures var f := PodOf(Exec(c, run).value, pod);
            EntryIs(f, key, Hits(c, run, key, pod, Began(c, f, key, 0)))
  {
    if run.Then? {
      var s, l := Exec(c, run.before).value, run.last;
      EntryCountsHits(c, run.before, key, pod);
      RunKeepsInv(c, run.before);
      assert OpenedBy(c, s, pod, key);
      if l.Request? {
        AnsweredIff(c, run.before, l);
        if IsHit(c, run.before, l, key, pod) && !Running(PodOf(s, pod), key, l.at) {
          NoHitUnlessRunning(c, run.before, key, pod, l.at);
        }
      }
    }
  }

  // The pruner leaves exactly the entries whose window is still running.
  lemma {:induction false} PrunerKeepsRunning(c: Config, s: State, pod: nat, at: nat, key: nat)
    requires c.Valid()
    ensures var f, f' := PodOf(s, pod), PodOf(Do(c, s, Prune(pod, at)), pod);
            if Running(f, key, at) then key in f' && f'[key] == f[key] else key !in f'
  {
  }

  // ---- Who is refused ----------------------------------------------------------------

  // What was counted before the request in the window that decides it.
  function CountedBefore(c: Config, run: Run<Label>, l: Label): nat
    requires c.Valid() && l.Request?
  {
    if FallsBack(c, run, l) then Hits(c, run, l.key, l.pod, Opening(c, run, l.key, l.pod, l.at))
    else Incrs(c, run, l.key, l.at / c.windowMs)
  }

  function CeilingFor(c: Config, run: Run<Label>, l: Label): nat
    requires c.Valid()
  {
    if FallsBack(c, run, l) then c.Ceiling() else c.max
  }

  lemma {:induction false} EntryOfRequest(c: Config, run: Run<Label>, l: Label)
    requires c.Valid() && Exec(c, run).Some? && Enabled(Exec(c, run).value, l) && FallsBack(c, run, l)
    ensures var opening := Opening(c, run, l.key, l.pod, l.at);
            var e := FallbackEntry(c, PodOf(Exec(c, run).value, l.pod), l.key, l.at);
            && e.count == Hits(c, run, l.key, l.pod, opening) + 1
            && e.resetAt == opening + c.windowMs
  {
    EntrySaysOpening(c, run, l.key, l.pod, l.at);
    if Running(PodOf(Exec(c, run).value, l.pod), l.key, l.at) {
      EntryCountsHits(c, run, l.key, l.pod);
    } else {
      NoHitUnlessRunning(c, run, l.key, l.pod, l.at);
    }
  }

  // After any run, a request is refused exactly when its ceiling was already
  // counted in its window; otherwise it is admitted, in that window.
  lemma {:induction false} RefusedIff(c: Config, run: Run<Label>, s: State, l: Label, window: nat)
    requires c.Valid() && Exec(c, run) == Some(s) && Enabled(s, l) && l.Request? && window == l.at / c.windowMs
    ensures var opening := Opening(c, run, l.key, l.pod, l.at);
            Do(c, s, l).log ==
              if CeilingFor(c, run, l) <= CountedBefore(c, run, l) then s.log
              else if FallsBack(c, run, l)
                then Then(s.log, Admission(l.key, l.at, ByFallback(l.pod, opening + c.windowMs)))
              else Then(s.log, Admission(l.key, l.at, ByRedis(window)))
  {
    AnsweredIff(c, run, l);
    if FallsBack(c, run, l) {
      EntryOfRequest(c, run, l);
    }
  }

  // ---- Without an outage, max requests a window are admitted ----------------------------

  function Requests(c: Config, run: Run<Label>, key: nat, window: nat): nat
    requires c.Valid()
  {
    match run
    case Start => 0
    case Then(before, l) =>
      Requests(c, before, key, window) +
      if l.Request? && l.key == key && l.at / c.windowMs == window then 1 else 0
  }

  lemma {:induction false} IncrsWithinRequests(c: Config, run: Run<Label>, key: nat, window: nat)
    requires c.Valid()
    ensures Incrs(c, run, key, window) <= Requests(c, run, key, window)
    ensures NoOutage(run) ==> Incrs(c, run, key, window) == Requests(c, run, key, window)
  {
    if run.Then? {
      IncrsWithinRequests(c, run.before, key, window);
    }
  }

  // The log after a request Redis served, when so many of its window came before.
  predicate AdmitsBelowMax(c: Config, s: State, s': State, key: nat, at: nat, window: nat, before: nat) {
    s'.log == if c.max <= before then s.log else Then(s.log, Admission(key, at, ByRedis(window)))
  }

  lemma {:induction false} ServedRefusedIff(c: Config, run: Run<Label>, s: State, l: Label, window: nat)
    requires c.Valid() && Exec(c, run) == Some(s) && Enabled(s, l) && l.Request? && window == l.at / c.windowMs
    requires l.fate.Served?
    ensures AdmitsBelowMax(c, s, Do(c, s, l), l.key, l.at, window, Incrs(c, run, l.key, window))
  {
    RefusedIff(c, run, s, l, window);
  }

  // A request Redis serves is admitted if fewer than max came before it in its
  // window, whatever outages there were.
  lemma {:induction false} ServedBelowMax(c: Config, run: Run<Label>, s: State, l: Label, window: nat)
    requires c.Valid() && Exec(c, run) == Some(s) && Enabled(s, l) && l.Request? && window == l.at / c.windowMs
    requires l.fate.Served? && Requests(c, run, l.key, window) < c.max
    ensures Do(c, s, l).log == Then(s.log, Admission(l.key, l.at, ByRedis(window)))
  {
    ServedRefusedIff(c, run, s, l, window);
    IncrsWithinRequests(c, run, l.key, window);
  }

  // Without an outage, it is admitted exactly then.
  lemma {:induction false} NoOutageRefusedIff(c: Config, run: Run<Label>, s: State, l: Label, window: nat)
    requires c.Valid() && Exec(c, run) == Some(s) && Enabled(s, l) && l.Request? && window == l.at / c.windowMs
    requires l.fate.Served? && NoOutage(run)
    ensures AdmitsBelowMax(c, s, Do(c, s, l), l.key, l.at, window, Requests(c, run, l.key, window))
  {
    ServedRefusedIff(c, run, s, l, window);
    IncrsWithinRequests(c, run, l.key, window);
  }
}
