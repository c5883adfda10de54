/**
 The ingest key cache: each pod remembers, for five minutes, which workspace a
 key hash belongs to; rotating or revoking a key evicts it locally and broadcasts
 the eviction, and a broadcast may be lost.
 */
module IngestCache {
  import opened Wrappers

  const TTL_MS: nat := 300_000

  // What the lookup selects of a workspace.
  datatype Row = Row(id: nat, plan: nat)

  // `readAt` is when the database lookup that produced the row ran.
  datatype Entry = Entry(row: Row, expiresAt: nat, readAt: nat)

  type Cache = map<nat, Entry>

  // getCachedWorkspace: an entry is served up to and including its expiry.
  function Cached(cache: Cache, hash: nat, now: nat): Option<Row> {
    if hash in cache && now <= cache[hash].expiresAt then Some(cache[hash].row) else None
  }

  // setCachedWorkspace: the entry lasts from the moment it is stored.
  function Stored(cache: Cache, hash: nat, row: Row, now: nat, readAt: nat): Cache {
    cache[hash := Entry(row, now + TTL_MS, readAt)]
  }

  class PodCache {
    var entries: Cache

    constructor ()
      ensures entries == map[]
    {
      entries := map[];
    }

    method GetCachedWorkspace(hash: nat, now: nat) returns (row: Option<Row>)
      modifies this
      ensures row == Cached(old(entries), hash, now)
      ensures entries == if row.None? then old(entries) - {hash} else old(entries)
    {
      if hash !in entries {
        return None;
      }
      var entry := entries[hash];
      if now > entry.expiresAt {
        entries := entries - {hash};
        return None;
      }
      return Some(entry.row);
    }

    method SetCachedWorkspace(hash: nat, row: Row, now: nat, readAt: nat)
      modifies this
      ensures entries == Stored(old(entries), hash, row, now, readAt)
    {
      entries := entries[hash := Entry(row, now + TTL_MS, readAt)];
    }

    // The local half of evictCachedWorkspace, and a received invalidation.
    method Evict(hash: nat)
      modifies this
      ensures entries == old(entries) - {hash}
    {
      entries := entries - {hash};
    }

    // requireIngestKey: None is the 401 answer. A miss reads the table as it is now and
    // goes on later, after the evictions that came in meanwhile.
    method RequireIngestKey(hash: nat, now: nat, keys: map<nat, Row>, evicted: seq<nat>, later: nat)
    returns (workspace: Option<Row>)
      modifies this
      ensures var hit := Cached(old(entries), hash, now);
              workspace == if hit.Some? then hit else if hash in keys then Some(keys[hash]) else None
      ensures Cached(old(entries), hash, now).Some? ==> entries == old(entries)
      ensures Cached(old(entries), hash, now).None? ==>
                var rest := old(entries) - {hash} - (set h | h in evicted);
                entries == if hash in keys then Stored(rest, hash, keys[hash], later, now) else rest
    {
      workspace := GetCachedWorkspace(hash, now);
      if workspace.None? {
        var row := if hash in keys then Some(keys[hash]) else None;
        for i := 0 to |evicted|
          invariant entries == old(entries) - {hash} - (set h | h in evicted[..i])
        {
          assert evicted[..i + 1] == evicted[..i] + [evicted[i]];
          Evict(evicted[i]);
        }
        assert evicted[..|evicted|] == evicted;
        if row.Some? {
          SetCachedWorkspace(hash, row.value, later, now);
        }
        workspace := row;
      }
    }
  }

  // ---- A fleet of pods ------------------------------------------------------------------

  datatype Lookup = Lookup(hash: nat, row: Row, at: nat)

  // A request between its database lookup and its setCachedWorkspace.
  datatype Pending = Pending(pod: nat, found: Lookup)

  datatype State = State(
    now: nat,
    keys: map<nat, Row>,                // ingestApiKey column: hash to workspace
    pods: map<nat, Cache>,
    subscribed: set<nat>,
    messages: set<(nat, nat)>,          // invalidations on their way: pod, hash
    pending: map<nat, Pending>,
    lookups: set<Lookup>)               // every successful lookup so far

  datatype Label =
    | Tick(elapsed: nat)
    | Find(q: nat, pod: nat, hash: nat)
    | Keep(q: nat)
    | Abandon(q: nat)
    | Evict(pod: nat, hash: nat)
    | Receive(pod: nat, hash: nat)
    | Lose(pod: nat, hash: nat)
    | Subscribe(pod: nat)
    | Assign(hash: nat, row: Row)
    | Remove(hash: nat)

  function CacheOf(s: State, pod: nat): Cache {
    if pod in s.pods then s.pods[pod] else map[]
  }

  function Served(s: State, pod: nat, hash: nat): Option<Row> {
    Cached(CacheOf(s, pod), hash, s.now)
  }

  predicate Enabled(s: State, l: Label) {
    match l
    case Find(q, pod, hash) => q !in s.pending && Served(s, pod, hash).None?
    case Keep(q) => q in s.pending
    case Abandon(q) => q in s.pending
    case Receive(pod, hash) => (pod, hash) in s.messages
    case _ => true
  }

  function Forget(s: State, pod: nat, hash: nat): State {
    s.(pods := s.pods[pod := CacheOf(s, pod) - {hash}])
  }

  function Do(s: State, l: Label): State
    requires Enabled(s, l)
  {
    match l
    case Tick(elapsed) => s.(now := s.now + elapsed)
    case Find(q, pod, hash) =>
      if hash in s.keys then
        var found := Lookup(hash, s.keys[hash], s.now);
        s.(pending := s.pending[q := Pending(pod, found)], lookups := s.lookups + {found})
      else s
    case Keep(q) =>
      var p := s.pending[q];
      s.(pods := s.pods[p.pod := Stored(CacheOf(s, p.pod), p.found.hash, p.found.row, s.now, p.found.at)],
         pending := s.pending - {q})
    case Abandon(q) => s.(pending := s.pending - {q})
    case Evict(pod, hash) =>
      Forget(s, pod, hash).(messages := s.messages + set p | p in s.subscribed :: (p, hash))
    case Receive(pod, hash) => Forget(s, pod, hash).(messages := s.messages - {(pod, hash)})
    case Lose(pod, hash) => s.(messages := s.messages - {(pod, hash)})
    case Subscribe(pod) => s.(subscribed := s.subscribed + {pod})
    case Assign(hash, row) => s.(keys := s.keys[hash := row])
    case Remove(hash) => s.(keys := s.keys - {hash})
  }

  const INIT := State(0, map[], map[], {}, {}, map[], {})

  function Exec(run: Run<Label>): Option<State> {
    match run
    case Start => Some(INIT)
    case Then(before, l) =>
      var s := Exec(before);
      if s.Some? && Enabled(s.value, l) then Some(Do(s.value, l)) else None
  }

  // ---- What is served --------------------------------------------------------------------

  datatype Kept = Kept(row: Row, at: nat)

  // What the pod stored last for the hash since it last dropped it, and when.
  function LastKept(run: Run<Label>, pod: nat, hash: nat): Option<Kept>
    requires Exec(run).Some?
  {
    match run
    case Start => None
    case Then(before, l) =>
      var s := Exec(before).value;
      if (l.Evict? || l.Receive?) && l.pod == pod && l.hash == hash then None
      else if l.Keep? && s.pending[l.q].pod == pod && s.pending[l.q].found.hash == hash
        then Some(Kept(s.pending[l.q].found.row, s.now))
      else LastKept(before, pod, hash)
  }

  predicate HoldsKept(s: State, pod: nat, hash: nat, kept: Option<Kept>) {
    if kept.None? then hash !in CacheOf(s, pod)
    else hash in CacheOf(s, pod) && CacheOf(s, pod)[hash].row == kept.value.row
         && CacheOf(s, pod)[hash].expiresAt == kept.value.at + TTL_MS
  }

  lemma {:induction false} KeptStep(s: State, l: Label, pod: nat, hash: nat, kept: Option<Kept>)
    requires Enabled(s, l) && HoldsKept(s, pod, hash, kept)
    requires l.Evict? || l.Receive? ==> l.pod != pod || l.hash != hash
    requires l.Keep? ==> s.pending[l.q].pod != pod || s.pending[l.q].found.hash != hash
    ensures HoldsKept(Do(s, l), pod, hash, kept)
  {
  }

  lemma {:induction false} CacheHoldsLastKept(run: Run<Label>, pod: nat, hash: nat)
    requires Exec(run).Some?
    ensures HoldsKept(Exec(run).value, pod, hash, LastKept(run, pod, hash))
  {
    if run.Then? {
      var s, l := Exec(run.before).value, run.last;
      CacheHoldsLastKept(run.before, pod, hash);
      if (l.Evict? || l.Receive?) && l.pod == pod && l.hash == hash {
      } else if l.Keep? && s.pending[l.q].pod == pod && s.pending[l.q].found.hash == hash {
      } else {
        KeptStep(s, l, pod, hash, LastKept(run.before, pod, hash));
      }
    }
  }

  // A pod accepts a hash from its cache exactly while what it stored last is no older
  // than the TTL, and for the workspace that was found then.
  lemma {:induction false} ServedIff(run: Run<Label>, pod: nat, hash: nat)
    requires Exec(run).Some?
    ensures var kept := LastKept(run, pod, hash);
            Served(Exec(run).value, pod, hash) ==
              if kept.Some? && Exec(run).value.now <= kept.value.at + TTL_MS then Some(kept.value.row) else None
  {
    CacheHoldsLastKept(run, pod, hash);
  }

  // The workspace the hash was last given to, until it is removed.
  function LastAssigned(run: Run<Label>, hash: nat): Option<Row> {
    match run
    case Start => None
    case Then(before, l) =>
      if l.Assign? && l.hash == hash then Some(l.row)
      else if l.Remove? && l.hash == hash then None
      else LastAssigned(before, hash)
  }

  predicate HasSubscribed(run: Run<Label>, pod: nat) {
    run.Then? && (HasSubscribed(run.before, pod) || run.last == Subscribe(pod))
  }

  // A pod looks a hash up exactly when its cache does not serve it, and may drop the answer.
  lemma {:induction false} LooksUpOnMiss(run: Run<Label>, q: nat, pod: nat, hash: nat)
    requires Exec(run).Some?
    ensures var s, kept := Exec(run).value, LastKept(run, pod, hash);
            && (q in s.pending ==> Enabled(s, Abandon(q)))
            && (q !in s.pending ==>
                  (Enabled(s, Find(q, pod, hash)) <==> kept == None || kept.value.at + TTL_MS < s.now))
  {
    CacheHoldsLastKept(run, pod, hash);
  }

  // A lookup that finds nothing, and a store, leave nothing pending behind.
  predicate EndsRequest(s: State, l: Label) {
    (l.Keep? || l.Abandon?) || (l.Find? && l.hash !in s.keys)
  }

  lemma {:induction false} TablesHoldLastWritten(run: Run<Label>, hash: nat, pod: nat)
    requires Exec(run).Some?
    ensures var s := Exec(run).value;
            && LastAssigned(run, hash) == (if hash in s.keys then Some(s.keys[hash]) else None)
            && (pod in s.subscribed <==> HasSubscribed(run, pod))
            && (run.Then? && EndsRequest(Exec(run.before).value, run.last) ==> run.last.q !in s.pending)
  {
    if run.Then? {
      TablesHoldLastWritten(run.before, hash, pod);
    }
  }

  // ---- Bounded staleness --------------------------------------------------------------------

  predicate EntryOk(s: State, pod: nat, hash: nat) {
    hash in CacheOf(s, pod) ==>
      var e := CacheOf(s, pod)[hash];
      Lookup(hash, e.row, e.readAt) in s.lookups && e.readAt + TTL_MS <= e.expiresAt <= s.now + TTL_MS
  }

  ghost predicate Inv(s: State) {
    && (forall pod, hash :: EntryOk(s, pod, hash))
    && (forall q :: q in s.pending ==> s.pending[q].found in s.lookups)
    && (forall found :: found in s.lookups ==> found.at <= s.now)
  }

  lemma InvStep(s: State, l: Label)
    requires Inv(s) && Enabled(s, l)
    ensures Inv(Do(s, l))
  {
    var s' := Do(s, l);
    forall pod, hash
      ensures EntryOk(s', pod, hash)
    {
      assert EntryOk(s, pod, hash);
    }
  }

  lemma {:induction false} RunKeepsInv(run: Run<Label>)
    requires Exec(run).Some?
    ensures Inv(Exec(run).value)
  {
    if run.Then? {
      RunKeepsInv(run.before);
      InvStep(Exec(run.before).value, run.last);
    }
  }

  // Whatever broadcasts are lost, a hash accepted from a cache was found in the
  // database, with that row, and stored (at expiresAt - TTL) at most the TTL ago.
  lemma CachedRowWasLookedUp(run: Run<Label>, pod: nat, hash: nat)
    requires Exec(run).Some? && Served(Exec(run).value, pod, hash).Some?
    ensures var s := Exec(run).value; var e := CacheOf(s, pod)[hash];
            && Lookup(hash, Served(s, pod, hash).value, e.readAt) in s.lookups
            && e.readAt <= e.expiresAt - TTL_MS <= s.now <= e.expiresAt
  {
    RunKeepsInv(run);
    assert EntryOk(Exec(run).value, pod, hash);
  }

  // A delivered eviction removes the entry on the receiving pod, and an eviction
  // reaches every subscribed pod unless it is lost.
  lemma EvictionReachesSubscribers(s: State, pod: nat, hash: nat, other: nat)
    ensures var s' := Do(s, Label.Evict(pod, hash));
            && Served(s', pod, hash) == None
            && (other in s.subscribed ==>
                  Enabled(s', Receive(other, hash)) && Served(Do(s', Receive(other, hash)), other, hash) == None)
  {
  }

  // ---- After a key is gone from the database -----------------------------------------------------

  // Somebody still holds the removed key: a pod's cache, or a request between
  // its lookup and its store.
  ghost predicate Held(s: State, hash: nat) {
    || (exists pod :: Served(s, pod, hash).Some?)
    || (exists q :: q in s.pending && s.pending[q].found.hash == hash)
  }

  // `run` continues `from` without giving the hash back to a workspace.
  predicate Unassigned(from: Run<Label>, run: Run<Label>, hash: nat) {
    run == from || (run.Then? && Unassigned(from, run.before, hash) && !(run.last.Assign? && run.last.hash == hash))
  }

  lemma HeldStep(s: State, l: Label, hash: nat)
    requires Enabled(s, l) && hash !in s.keys && !Held(s, hash) && !(l.Assign? && l.hash == hash)
    ensures hash !in Do(s, l).keys && !Held(Do(s, l), hash)
  {
    var s' := Do(s, l);
    forall pod
      ensures Served(s', pod, hash) == None
    {
      assert Served(s, pod, hash) == None;
    }
  }

  lemma {:induction false} NeverHeldAgain(from: Run<Label>, run: Run<Label>, hash: nat)
    requires Exec(from).Some? && Exec(run).Some? && Unassigned(from, run, hash)
    requires hash !in Exec(from).value.keys && !Held(Exec(from).value, hash)
    ensures hash !in Exec(run).value.keys && !Held(Exec(run).value, hash)
  {
    if run != from {
      NeverHeldAgain(from, run.before, hash);
      HeldStep(Exec(run.before).value, run.last, hash);
    }
  }

  // Some continuation that never reassigns the hash still serves it from a cache.
  ghost predicate CanStillServe(run: Run<Label>, hash: nat) {
    exists longer, pod :: Unassigned(run, longer, hash) && Exec(longer).Some?
      && Served(Exec(longer).value, pod, hash).Some?
  }

  // A removed key can still authenticate exactly when, at that moment, a cache
  // serves it or a request that looked it up has not stored it yet.
  lemma {:induction false} RemovedKeyServesIff(run: Run<Label>, hash: nat)
    requires Exec(run).Some? && hash !in Exec(run).value.keys
    ensures CanStillServe(run, hash) <==> Held(Exec(run).value, hash)
  {
    var s := Exec(run).value;
    if Held(s, hash) {
      if pod :| Served(s, pod, hash).Some? {
        assert Unassigned(run, run, hash);
      } else {
        var q :| q in s.pending && s.pending[q].found.hash == hash;
        var longer := Then(run, Keep(q));
        assert Unassigned(run, longer, hash);
        assert Exec(longer) == Some(Do(s, Keep(q)));
        assert Served(Do(s, Keep(q)), s.pending[q].pod, hash).Some?;
      }
    } else {
      forall longer, pod | Unassigned(run, longer, hash) && Exec(longer).Some?
        ensures Served(Exec(longer).value, pod, hash) == None
      {
        NeverHeldAgain(run, longer, hash);
      }
    }
  }

  // The rotate and revoke routes evict first and update the table after. Even if
  // every pod receives the eviction at once, a request that looks the key up in
  // between leaves it served afterwards.
  lemma {:induction false} EvictBeforeRemoveLeavesKeyServed(run: Run<Label>, pod: nat, hash: nat, q: nat)
    returns (longer: Run<Label>)
    requires Exec(run).Some? && hash in Exec(run).value.keys && q !in Exec(run).value.pending
    ensures longer == Then(Then(Then(Then(run, Label.Evict(pod, hash)), Find(q, pod, hash)), Keep(q)), Remove(hash))
    ensures Exec(longer).Some? && hash !in Exec(longer).value.keys && Served(Exec(longer).value, pod, hash).Some?
  {
    var s := Exec(run).value;
    var s1 := Do(s, Label.Evict(pod, hash));
    assert Exec(Then(run, Label.Evict(pod, hash))) == Some(s1);
    assert Served(s1, pod, hash) == None;
    var s2 := Do(s1, Find(q, pod, hash));
    var s3 := Do(s2, Keep(q));
    assert CacheOf(s3, pod)[hash] == Entry(s.keys[hash], s.now + TTL_MS, s.now);
    var r2 := Then(Then(run, Label.Evict(pod, hash)), Find(q, pod, hash));
    assert Exec(r2) == Some(s2);
    assert Exec(Then(r2, Keep(q))) == Some(s3);
    longer := Then(Then(r2, Keep(q)), Remove(hash));
    assert Exec(longer) == Some(Do(s3, Remove(hash)));
  }

  // Every lookup is stored within `latency` of being read.
  predicate Prompt(run: Run<Label>, latency: nat) {
    Exec(run).Some? && (run.Then? ==>
      && Prompt(run.before, latency)
      && (run.last.Keep? ==>
            Exec(run.before).value.now <= Exec(run.before).value.pending[run.last.q].found.at + latency))
  }

  ghost predicate StoredPromptly(s: State, latency: nat) {
    forall pod, hash :: hash in CacheOf(s, pod) ==>
      CacheOf(s, pod)[hash].expiresAt <= CacheOf(s, pod)[hash].readAt + latency + TTL_MS
  }

  lemma {:induction false} PromptRunStoresPromptly(run: Run<Label>, latency: nat)
    requires Prompt(run, latency)
    ensures StoredPromptly(Exec(run).value, latency)
  {
    if run.Then? {
      PromptRunStoresPromptly(run.before, latency);
      var s, s' := Exec(run.before).value, Exec(run).value;
      forall pod, hash | hash in CacheOf(s', pod)
        ensures CacheOf(s', pod)[hash].expiresAt <= CacheOf(s', pod)[hash].readAt + latency + TTL_MS
      {
        assert hash in CacheOf(s, pod) || run.last.Keep?;
      }
    }
  }

  lemma {:induction false} NoLookupAfterRemoval(from: Run<Label>, run: Run<Label>, hash: nat, found: Lookup)
    requires Exec(from).Some? && Exec(run).Some? && Unassigned(from, run, hash) && hash !in Exec(from).value.keys
    requires found in Exec(run).value.lookups && found.hash == hash
    ensures found in Exec(from).value.lookups && hash !in Exec(run).value.keys
  {
    if run != from {
      KeyStaysRemoved(from, run.before, hash);
      NoLookupAfterRemoval(from, run.before, hash, found);
    }
  }

  lemma {:induction false} KeyStaysRemoved(from: Run<Label>, run: Run<Label>, hash: nat)
    requires Exec(from).Some? && Exec(run).Some? && Unassigned(from, run, hash) && hash !in Exec(from).value.keys
    ensures hash !in Exec(run).value.keys
  {
    if run != from {
      KeyStaysRemoved(from, run.before, hash);
    }
  }

  // With no broadcast delivered at all, a removed key is served for at most the
  // TTL and the time a lookup takes to be stored.
  lemma {:induction false} RemovedKeyExpires(from: Run<Label>, run: Run<Label>, hash: nat, latency: nat, pod: nat)
    requires Exec(from).Some? && Prompt(run, latency) && Unassigned(from, run, hash) && hash !in Exec(from).value.keys
    requires Served(Exec(run).value, pod, hash).Some?
    ensures Exec(run).value.now <= Exec(from).value.now + latency + TTL_MS
  {
    RunKeepsInv(run);
    RunKeepsInv(from);
    PromptRunStoresPromptly(run, latency);
    var s := Exec(run).value;
    var e := CacheOf(s, pod)[hash];
    assert EntryOk(s, pod, hash);
    NoLookupAfterRemoval(from, run, hash, Lookup(hash, e.row, e.readAt));
  }
}
