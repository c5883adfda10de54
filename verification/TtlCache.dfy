/**
 The single-flight TTL cache: concurrent gets of a key share one load, and a
 resolved value is served for `ttlMs` afterwards.

 A load settles in two microtasks: the `then` callback stores the value, and the
 `finally` callback, later, clears the in-flight marker of its key, whoever set it.
 */
module TtlCache {
  import opened Wrappers

  // `load` names the load that produced the value.
  datatype Entry = Entry(value: nat, expiresAt: nat, load: nat)

  datatype Answer = Hit(value: nat, load: nat) | Joined(load: nat) | Started(load: nat)

  type Store = map<nat, Entry>

  type Inflight = map<nat, nat>

  function GetAnswer(ttlMs: nat, store: Store, inflight: Inflight, key: nat, now: nat, next: nat): Answer {
    if ttlMs > 0 && key in store && now < store[key].expiresAt then Hit(store[key].value, store[key].load)
    else if key in inflight then Joined(inflight[key])
    else Started(next)
  }

  // A get that starts a load marks it, whichever load the key had before.
  function Marked(inflight: Inflight, key: nat, answer: Answer): Inflight {
    if answer.Started? then inflight[key := answer.load] else inflight
  }

  function Stored(ttlMs: nat, store: Store, key: nat, load: nat, value: nat, now: nat): Store {
    if ttlMs > 0 then store[key := Entry(value, now + ttlMs, load)] else store
  }

  class Cache {
    const ttlMs: nat
    var store: Store
    var inflight: Inflight

    constructor (ttlMs: nat)
      ensures this.ttlMs == ttlMs && store == map[] && inflight == map[]
    {
      this.ttlMs, store, inflight := ttlMs, map[], map[];
    }

    // `next` names the load this call makes if it has to.
    method Get(key: nat, now: nat, next: nat) returns (answer: Answer)
      modifies this`inflight
      ensures answer == GetAnswer(ttlMs, store, old(inflight), key, now, next)
      ensures inflight == Marked(old(inflight), key, answer)
    {
      if ttlMs > 0 {
        if key in store && store[key].expiresAt > now {
          return Hit(store[key].value, store[key].load);
        }
      }
      if key in inflight {
        return Joined(inflight[key]);
      }
      inflight := inflight[key := next];
      return Started(next);
    }

    // The `then` callback of a load.
    method Loaded(key: nat, load: nat, value: nat, now: nat)
      modifies this`store
      ensures store == Stored(ttlMs, old(store), key, load, value, now)
    {
      if ttlMs > 0 {
        store := store[key := Entry(value, now + ttlMs, load)];
      }
    }

    // The `finally` callback of a load.
    method Settled(key: nat)
      modifies this`inflight
      ensures inflight == old(inflight) - {key}
    {
      inflight := inflight - {key};
    }

    method Delete(key: nat)
      modifies this
      ensures store == old(store) - {key} && inflight == old(inflight) - {key}
    {
      store := store - {key};
      inflight := inflight - {key};
    }

    method Clear()
      modifies this
      ensures store == map[] && inflight == map[]
    {
      store, inflight := map[], map[];
    }
  }

  // ---- Asynchronous runs ------------------------------------------------------------

  datatype Phase = Running | Resolved(value: nat) | Rejected | Over(result: Option<nat>)

  // `doneAt` is the time of the `then` callback.
  datatype Load = Load(key: nat, phase: Phase, doneAt: nat) {
    // The value the load resolved to, if it did.
    function Result(): Option<nat> {
      match phase
      case Resolved(value) => Some(value)
      case Over(result) => result
      case _ => None
    }
  }

  datatype State = State(now: nat, store: Store, inflight: Inflight, loads: seq<Load>)

  datatype Label =
    | Tick(elapsed: nat)
    | Get(key: nat)
    | Resolve(load: nat, value: nat)
    | Reject(load: nat)
    | Finally(load: nat)
    | Delete(key: nat)
    | Clear

  const INIT := State(0, map[], map[], [])

  predicate Enabled(s: State, l: Label) {
    match l
    case Resolve(load, _) => load < |s.loads| && s.loads[load].phase.Running?
    case Reject(load) => load < |s.loads| && s.loads[load].phase.Running?
    case Finally(load) => load < |s.loads| && (s.loads[load].phase.Resolved? || s.loads[load].phase.Rejected?)
    case _ => true
  }

  function AnswerOf(ttlMs: nat, s: State, key: nat): Answer {
    GetAnswer(ttlMs, s.store, s.inflight, key, s.now, |s.loads|)
  }

  function Do(ttlMs: nat, s: State, l: Label): State
    requires Enabled(s, l)
  {
    match l
    case Tick(elapsed) => s.(now := s.now + elapsed)
    case Get(key) =>
      var answer := AnswerOf(ttlMs, s, key);
      s.(inflight := Marked(s.inflight, key, answer),
         loads := if answer.Started? then s.loads + [Load(key, Running, 0)] else s.loads)
    case Resolve(load, value) =>
      var key := s.loads[load].key;
      s.(store := Stored(ttlMs, s.store, key, load, value, s.now),
         loads := s.loads[load := Load(key, Resolved(value), s.now)])
    case Reject(load) => s.(loads := s.loads[load := s.loads[load].(phase := Rejected)])
    case Finally(load) =>
      s.(inflight := s.inflight - {s.loads[load].key},
         loads := s.loads[load := s.loads[load].(phase := Over(s.loads[load].Result()))])
    case Delete(key) => s.(store := s.store - {key}, inflight := s.inflight - {key})
    case Clear => s.(store := map[], inflight := map[])
  }

  function Exec(ttlMs: nat, run: Run<Label>): Option<State> {
    match run
    case Start => Some(INIT)
    case Then(before, l) =>
      var s := Exec(ttlMs, before);
      if s.Some? && Enabled(s.value, l) then Some(Do(ttlMs, s.value, l)) else None
  }

  predicate Outstanding(s: State, key: nat, load: nat) {
    load < |s.loads| && s.loads[load].key == key && !s.loads[load].phase.Over?
  }

  // ---- Provenance of every answer -----------------------------------------------------

  predicate EntryOk(ttlMs: nat, s: State, key: nat) {
    key in s.store ==>
      var e := s.store[key];
      && ttlMs > 0 && e.load < |s.loads| && s.loads[e.load].key == key
      && s.loads[e.load].Result() == Some(e.value)
      && s.loads[e.load].doneAt <= s.now && e.expiresAt == s.loads[e.load].doneAt + ttlMs
  }

  predicate MarkerOk(s: State, key: nat) {
    key in s.inflight ==> Outstanding(s, key, s.inflight[key])
  }

  ghost predicate Inv(ttlMs: nat, s: State) {
    (forall key :: EntryOk(ttlMs, s, key)) && (forall key :: MarkerOk(s, key))
  }

  lemma InvStep(ttlMs: nat, s: State, l: Label)
    requires Inv(ttlMs, s) && Enabled(s, l)
    ensures Inv(ttlMs, Do(ttlMs, s, l))
  {
    var s' := Do(ttlMs, s, l);
    forall key
      ensures EntryOk(ttlMs, s', key) && MarkerOk(s', key)
    {
      assert EntryOk(ttlMs, s, key) && MarkerOk(s, key);
    }
  }

  lemma {:induction false} RunKeepsInv(ttlMs: nat, run: Run<Label>)
    requires Exec(ttlMs, run).Some?
    ensures Inv(ttlMs, Exec(ttlMs, run).value)
  {
    if run.Then? {
      RunKeepsInv(ttlMs, run.before);
      InvStep(ttlMs, Exec(ttlMs, run.before).value, run.last);
    }
  }

  // Every answer comes from a load of that key: one that resolved to the value
  // less than ttlMs ago (never a failed one), or one still outstanding.
  lemma AnswersAreFresh(ttlMs: nat, run: Run<Label>, key: nat)
    requires Exec(ttlMs, run).Some?
    ensures var s := Exec(ttlMs, run).value;
            match AnswerOf(ttlMs, s, key)
            case Hit(value, load) =>
              && load < |s.loads| && s.loads[load].key == key && s.loads[load].Result() == Some(value)
              && s.loads[load].doneAt <= s.now < s.loads[load].doneAt + ttlMs
            case Joined(load) => Outstanding(s, key, load)
            case Started(load) => load == |s.loads| && key !in s.inflight
  {
    RunKeepsInv(ttlMs, run);
    var s := Exec(ttlMs, run).value;
    assert EntryOk(ttlMs, s, key) && MarkerOk(s, key);
  }

  // ---- What is served -------------------------------------------------------------------

  datatype Stamped = Stamped(load: nat, value: nat, at: nat)

  // The last value a load of the key resolved to after the last drop of the key, and when.
  function Latest(ttlMs: nat, run: Run<Label>, key: nat): Option<Stamped>
    requires Exec(ttlMs, run).Some?
  {
    match run
    case Start => None
    case Then(before, l) =>
      var s := Exec(ttlMs, before).value;
      if Drops(l, key) then None
      else if l.Resolve? && s.loads[l.load].key == key then Some(Stamped(l.load, l.value, s.now))
      else Latest(ttlMs, before, key)
  }

  predicate StoreSays(ttlMs: nat, s: State, key: nat, latest: Option<Stamped>) {
    if ttlMs > 0 && latest.Some?
    then key in s.store && s.store[key] == Entry(latest.value.value, latest.value.at + ttlMs, latest.value.load)
    else key !in s.store
  }

  lemma {:induction false} StoreHoldsLatest(ttlMs: nat, run: Run<Label>, key: nat)
    requires Exec(ttlMs, run).Some?
    ensures StoreSays(ttlMs, Exec(ttlMs, run).value, key, Latest(ttlMs, run, key))
    ensures Latest(ttlMs, run, key).Some? ==> Latest(ttlMs, run, key).value.at <= Exec(ttlMs, run).value.now
  {
    if run.Then? {
      StoreHoldsLatest(ttlMs, run.before, key);
    }
  }

  // A get is served without a load exactly while the latest value of the key is less
  // than ttlMs old, and then with that value.
  lemma {:induction false} ServedIff(ttlMs: nat, run: Run<Label>, key: nat)
    requires Exec(ttlMs, run).Some?
    ensures var s, latest := Exec(ttlMs, run).value, Latest(ttlMs, run, key);
            if latest.Some? && s.now < latest.value.at + ttlMs
            then AnswerOf(ttlMs, s, key) == Hit(latest.value.value, latest.value.load)
            else !AnswerOf(ttlMs, s, key).Hit?
  {
    StoreHoldsLatest(ttlMs, run, key);
  }

  // A load that settles leaves its key free for the next one; one that fails leaves no
  // value either, and never has one.
  lemma {:induction false} SettledLoadEnds(ttlMs: nat, run: Run<Label>, settle: Label)
    requires Exec(ttlMs, run).Some? && Enabled(Exec(ttlMs, run).value, settle) && (settle.Resolve? || settle.Reject?)
    ensures var s, key := Exec(ttlMs, run).value, Exec(ttlMs, run).value.loads[settle.load].key;
            var after := Exec(ttlMs, Then(Then(run, settle), Finally(settle.load)));
            && after.Some? && key !in after.value.inflight
            && after.value.loads[settle.load].phase == Over(if settle.Resolve? then Some(settle.value) else None)
            && (settle.Reject? ==> after.value.store == s.store)
            && (!AnswerOf(ttlMs, after.value, key).Hit? ==> AnswerOf(ttlMs, after.value, key) == Started(|s.loads|))
  {
    var s1 := Do(ttlMs, Exec(ttlMs, run).value, settle);
    assert Exec(ttlMs, Then(run, settle)) == Some(s1);
  }

  // ---- Single flight of a key, when no drop of it meets a load ---------------------------

  // A delete of the key, or a clear.
  predicate Drops(l: Label, key: nat) {
    l == Delete(key) || l == Clear
  }

  ghost predicate Calm(s: State, l: Label, key: nat) {
    Drops(l, key) ==> forall load: nat :: !Outstanding(s, key, load)
  }

  // No delete of the key, and no clear, finds a load of it outstanding.
  ghost predicate CalmRun(ttlMs: nat, run: Run<Label>, key: nat) {
    Exec(ttlMs, run).Some? && (run.Then? ==>
      CalmRun(ttlMs, run.before, key) && Calm(Exec(ttlMs, run.before).value, run.last, key))
  }

  ghost predicate AllMarked(s: State, key: nat) {
    forall load: nat :: Outstanding(s, key, load) ==> key in s.inflight && s.inflight[key] == load
  }

  lemma AllMarkedStep(ttlMs: nat, s: State, l: Label, key: nat)
    requires Inv(ttlMs, s) && AllMarked(s, key) && Enabled(s, l) && Calm(s, l, key)
    ensures AllMarked(Do(ttlMs, s, l), key)
  {
    var s' := Do(ttlMs, s, l);
    assert MarkerOk(s, key);
    forall load: nat | Outstanding(s', key, load)
      ensures key in s'.inflight && s'.inflight[key] == load
    {
      if load < |s.loads| {
        assert Outstanding(s, key, load);
        if l.Finally? && s.loads[l.load].key == key {
          assert Outstanding(s, key, l.load);
        }
      }
    }
  }

  lemma {:induction false} CalmRunIsMarked(ttlMs: nat, run: Run<Label>, key: nat)
    requires CalmRun(ttlMs, run, key)
    ensures AllMarked(Exec(ttlMs, run).value, key)
  {
    if run.Then? {
      CalmRunIsMarked(ttlMs, run.before, key);
      RunKeepsInv(ttlMs, run.before);
      AllMarkedStep(ttlMs, Exec(ttlMs, run.before).value, run.last, key);
    }
  }

  // At most one load of the key is outstanding, and every get that does not hit joins
  // it, whatever happens to other keys.
  lemma SingleFlight(ttlMs: nat, run: Run<Label>, key: nat, a: nat, b: nat)
    requires CalmRun(ttlMs, run, key)
    requires Outstanding(Exec(ttlMs, run).value, key, a) && Outstanding(Exec(ttlMs, run).value, key, b)
    ensures a == b
    ensures var answer := AnswerOf(ttlMs, Exec(ttlMs, run).value, key); answer.Hit? || answer == Joined(a)
  {
    CalmRunIsMarked(ttlMs, run, key);
  }

  // In a run calm for the key, a drop of it followed by a get leaves one load of the key
  // outstanding exactly when it met none.
  lemma DropKeepsSingleFlightIff(ttlMs: nat, run: Run<Label>, drop: Label, key: nat)
    requires CalmRun(ttlMs, run, key) && Drops(drop, key)
    ensures var s := Do(ttlMs, Do(ttlMs, Exec(ttlMs, run).value, drop), Get(key));
            (forall a, b :: Outstanding(s, key, a) && Outstanding(s, key, b) ==> a == b) <==>
              forall load: nat :: !Outstanding(Exec(ttlMs, run).value, key, load)
  {
    var s := Exec(ttlMs, run).value;
    var s' := Do(ttlMs, Do(ttlMs, s, drop), Get(key));
    assert Outstanding(s', key, |s.loads|);
    forall load: nat | load < |s.loads|
      ensures Outstanding(s', key, load) <==> Outstanding(s, key, load)
    {
    }
  }

  // ---- What a get after a drop may return ---------------------------------------------------

  predicate StillRunning(s: State, key: nat, load: nat) {
    load < |s.loads| && s.loads[load].key == key && s.loads[load].phase.Running?
  }

  // Of the loads numbered below `limit`, none can reach a get of `key` any more.
  ghost predicate Unreachable(s: State, key: nat, limit: nat) {
    && limit <= |s.loads|
    && (forall load: nat :: load < limit ==> !StillRunning(s, key, load))
    && (key in s.store ==> limit <= s.store[key].load)
    && (key in s.inflight ==> limit <= s.inflight[key])
  }

  // Without a store, only the in-flight marker could hand an old load out.
  ghost predicate Unstored(s: State, key: nat, limit: nat) {
    limit <= |s.loads| && s.store == map[] && (key in s.inflight ==> limit <= s.inflight[key])
  }

  lemma UnreachableStep(ttlMs: nat, s: State, l: Label, key: nat, limit: nat)
    requires Enabled(s, l) && Unreachable(s, key, limit)
    ensures Unreachable(Do(ttlMs, s, l), key, limit)
  {
    var s' := Do(ttlMs, s, l);
    assert forall load: nat :: load < limit && StillRunning(s', key, load) ==> StillRunning(s, key, load);
    if l.Resolve? && s.loads[l.load].key == key {
      assert StillRunning(s, key, l.load);
    }
  }

  lemma {:induction false} StaysUnreachable(ttlMs: nat, from: Run<Label>, run: Run<Label>, key: nat, limit: nat)
    requires Prefix(from, run) && Exec(ttlMs, run).Some? && Exec(ttlMs, from).Some?
    requires Unreachable(Exec(ttlMs, from).value, key, limit)
         || (ttlMs == 0 && Unstored(Exec(ttlMs, from).value, key, limit))
    ensures Unreachable(Exec(ttlMs, run).value, key, limit)
         || (ttlMs == 0 && Unstored(Exec(ttlMs, run).value, key, limit))
  {
    if run != from {
      StaysUnreachable(ttlMs, from, run.before, key, limit);
      var s := Exec(ttlMs, run.before).value;
      if Unreachable(s, key, limit) {
        UnreachableStep(ttlMs, s, run.last, key, limit);
      }
    }
  }

  lemma {:induction false} EmptyWithoutTtl(run: Run<Label>)
    requires Exec(0, run).Some?
    ensures Exec(0, run).value.store == map[]
  {
    if run.Then? {
      EmptyWithoutTtl(run.before);
    }
  }

  // Some continuation after the drop answers a get of the key from a load that was
  // started before it.
  ghost predicate CanServeStale(ttlMs: nat, run: Run<Label>, drop: Label, key: nat) {
    exists longer :: Prefix(Then(run, drop), longer) && Exec(ttlMs, longer).Some? && Exec(ttlMs, run).Some? &&
      AnswerOf(ttlMs, Exec(ttlMs, longer).value, key).load < |Exec(ttlMs, run).value.loads|
  }

  // The load that still runs settles, and the next get is served from it.
  lemma {:induction false} RunningLoadIsServed(ttlMs: nat, run: Run<Label>, drop: Label, key: nat, load: nat)
    requires Exec(ttlMs, run).Some? && Drops(drop, key) && ttlMs > 0 && StillRunning(Exec(ttlMs, run).value, key, load)
    ensures var longer := Then(Then(run, drop), Resolve(load, 0));
            && Prefix(Then(run, drop), longer) && Exec(ttlMs, longer).Some?
            && AnswerOf(ttlMs, Exec(ttlMs, longer).value, key) == Hit(0, load)
  {
    var from := Then(run, drop);
    var s1 := Do(ttlMs, Exec(ttlMs, run).value, drop);
    assert Exec(ttlMs, from) == Some(s1);
    assert Exec(ttlMs, Then(from, Resolve(load, 0))) == Some(Do(ttlMs, s1, Resolve(load, 0)));
    assert Prefix(from, from);
  }

  // A get after a delete or a clear can return a value loaded before it exactly when a
  // load of the key was still running then and values are stored at all.
  lemma {:induction false} StaleAfterDropIff(ttlMs: nat, run: Run<Label>, drop: Label, key: nat)
    requires Exec(ttlMs, run).Some? && Drops(drop, key)
    ensures CanServeStale(ttlMs, run, drop, key) <==>
              ttlMs > 0 && exists load: nat :: StillRunning(Exec(ttlMs, run).value, key, load)
  {
    var s := Exec(ttlMs, run).value;
    var from := Then(run, drop);
    var s1 := Do(ttlMs, s, drop);
    if load: nat :| ttlMs > 0 && StillRunning(s, key, load) {
      RunningLoadIsServed(ttlMs, run, drop, key, load);
    } else {
      if ttlMs == 0 {
        EmptyWithoutTtl(run);
        assert Unstored(s1, key, |s.loads|);
      } else {
        assert forall load: nat :: StillRunning(s1, key, load) ==> StillRunning(s, key, load);
        assert Unreachable(s1, key, |s.loads|);
      }
      forall longer | Prefix(from, longer) && Exec(ttlMs, longer).Some?
        ensures AnswerOf(ttlMs, Exec(ttlMs, longer).value, key).load >= |s.loads|
      {
        StaysUnreachable(ttlMs, from, longer, key, |s.loads|);
      }
    }
  }

  // A get starts load 0 of key 5; the key is dropped while the load runs; the next get
  // is answered from load 0.
  lemma {:induction false} DroppedLoadIsServed(drop: Label) returns (run: Run<Label>)
    requires Drops(drop, 5)
    ensures run == Then(Then(Then(Start, Get(5)), drop), Resolve(0, 0))
    ensures Exec(1000, run).Some? && AnswerOf(1000, Exec(1000, run).value, 5) == Hit(0, 0)
  {
    var s := Do(1000, INIT, Get(5));
    assert Exec(1000, Start) == Some(INIT);
    assert Exec(1000, Then(Start, Get(5))) == Some(s);
    assert StillRunning(s, 5, 0);
    RunningLoadIsServed(1000, Then(Start, Get(5)), drop, 5, 0);
    run := Then(Then(Then(Start, Get(5)), drop), Resolve(0, 0));
  }
}
