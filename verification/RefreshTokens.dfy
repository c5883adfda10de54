/**
 Refresh-token rotation: a refresh revokes the presented token by a conditional
 update and persists its successor in a later statement; a token presented after
 its revocation is a replay and revokes the user's whole set.
 */
module RefreshTokens {
  import opened Wrappers

  datatype Token = Token(user: nat, revoked: bool, expiresAt: nat)

  // RefreshToken rows by token hash.
  type Table = map<nat, Token>

  predicate Usable(t: Table, hash: nat, now: nat) {
    hash in t && !t[hash].revoked && now < t[hash].expiresAt
  }

  function Revoke(t: Table, hash: nat): Table {
    if hash in t then t[hash := t[hash].(revoked := true)] else t
  }

  function Issued(t: Table, user: nat, hash: nat, expiresAt: nat): Table {
    t[hash := Token(user, false, expiresAt)]
  }

  function RevokeAll(t: Table, user: nat): (t': Table)
    ensures t'.Keys == t.Keys
  {
    map h | h in t :: if t[h].user == user then t[h].(revoked := true) else t[h]
  }

  class TokenTable {
    var rows: Table

    constructor ()
      ensures rows == map[]
    {
      rows := map[];
    }

    // The conditional update of /refresh: of concurrent presenters one counts 1.
    method Consume(hash: nat, now: nat) returns (count: nat)
      modifies this
      ensures count == if Usable(old(rows), hash, now) then 1 else 0
      ensures rows == if count == 1 then Revoke(old(rows), hash) else old(rows)
    {
      count := 0;
      if hash in rows && !rows[hash].revoked && rows[hash].expiresAt > now {
        rows := rows[hash := rows[hash].(revoked := true)];
        count := 1;
      }
    }

    method Persist(user: nat, hash: nat, expiresAt: nat)
      requires hash !in rows
      modifies this
      ensures rows == Issued(old(rows), user, hash, expiresAt)
    {
      rows := rows[hash := Token(user, false, expiresAt)];
    }

    // updateMany { userId, revokedAt: null }, row by row.
    method RevokeUser(user: nat)
      modifies this
      ensures rows == RevokeAll(old(rows), user)
      ensures rows.Keys == old(rows).Keys
      ensures forall h :: h in rows && rows[h].user == user ==> rows[h].revoked
      ensures forall h :: h in rows && rows[h].user != user ==> rows[h] == old(rows)[h]
    {
      var todo := rows.Keys;
      while todo != {}
        invariant todo <= rows.Keys == old(rows).Keys
        invariant forall h :: h in todo ==> rows[h] == old(rows)[h]
        invariant forall h :: h in rows && h !in todo ==> rows[h] == RevokeAll(old(rows), user)[h]
        decreases todo
      {
        var h :| h in todo;
        if rows[h].user == user && !rows[h].revoked {
          rows := rows[h := rows[h].(revoked := true)];
        }
        todo := todo - {h};
      }
    }

    method Logout(hash: nat)
      modifies this
      ensures rows == Revoke(old(rows), hash)
    {
      if hash in rows && !rows[hash].revoked {
        rows := rows[hash := rows[hash].(revoked := true)];
      }
      assert hash in rows ==> rows[hash] == rows[hash].(revoked := true);
    }
  }

  // ---- Interleaved requests -----------------------------------------------------------

  // Where a /refresh request stands between its statements.
  datatype Phase =
    | Missed(hash: nat)     // the conditional update counted 0
    | Replayed(user: nat)   // the token was found revoked; the whole set goes next
    | Rotating(user: nat)   // the token was consumed; its successor is not persisted yet

  datatype State = State(
    now: nat,
    tokens: Table,
    requests: map<nat, Phase>,
    seen: set<nat>,              // every hash ever issued
    consumed: multiset<nat>,     // tokens exchanged by a refresh
    sessions: multiset<nat>)     // completed logins, by user

  datatype Label =
    | Tick(elapsed: nat)
    | Login(user: nat, hash: nat, expiresAt: nat)
    | Present(q: nat, hash: nat)
    | Inspect(q: nat)
    | Punish(q: nat)
    | Persist(q: nat, hash: nat, expiresAt: nat)
    | Abandon(q: nat)
    | Logout(hash: nat)
    | RevokeUser(user: nat)
    | Purge(hash: nat)

  const INIT := State(0, map[], map[], {}, multiset{}, multiset{})

  predicate Enabled(s: State, l: Label) {
    match l
    case Login(_, hash, _) => hash !in s.seen
    case Present(q, _) => q !in s.requests
    case Inspect(q) => q in s.requests && s.requests[q].Missed?
    case Punish(q) => q in s.requests && s.requests[q].Replayed?
    case Persist(q, hash, _) => q in s.requests && s.requests[q].Rotating? && hash !in s.seen
    case Abandon(q) => q in s.requests
    // Retention deletes revoked or expired rows.
    case Purge(hash) => hash in s.tokens && (s.tokens[hash].revoked || s.tokens[hash].expiresAt < s.now)
    case _ => true
  }

  function Issue(s: State, user: nat, hash: nat, expiresAt: nat): State {
    s.(tokens := Issued(s.tokens, user, hash, expiresAt), seen := s.seen + {hash})
  }

  function Do(s: State, l: Label): State
    requires Enabled(s, l)
  {
    match l
    case Tick(elapsed) => s.(now := s.now + elapsed)
    case Login(user, hash, expiresAt) => Issue(s, user, hash, expiresAt).(sessions := s.sessions + multiset{user})
    case Present(q, hash) =>
      if Usable(s.tokens, hash, s.now) then
        s.(tokens := Revoke(s.tokens, hash), consumed := s.consumed + multiset{hash},
           requests := s.requests[q := Rotating(s.tokens[hash].user)])
      else s.(requests := s.requests[q := Missed(hash)])
    case Inspect(q) =>
      var hash := s.requests[q].hash;
      if hash in s.tokens && s.tokens[hash].revoked
      then s.(requests := s.requests[q := Replayed(s.tokens[hash].user)])
      else s.(requests := s.requests - {q})
    case Punish(q) =>
      s.(tokens := RevokeAll(s.tokens, s.requests[q].user), requests := s.requests - {q})
    case Persist(q, hash, expiresAt) =>
      Issue(s, s.requests[q].user, hash, expiresAt).(requests := s.requests - {q})
    case Abandon(q) => s.(requests := s.requests - {q})
    case Logout(hash) => s.(tokens := Revoke(s.tokens, hash))
    case RevokeUser(user) => s.(tokens := RevokeAll(s.tokens, user))
    case Purge(hash) => s.(tokens := s.tokens - {hash})
  }

  function Exec(run: Run<Label>): Option<State> {
    match run
    case Start => Some(INIT)
    case Then(before, l) =>
      var s := Exec(before);
      if s.Some? && Enabled(s.value, l) then Some(Do(s.value, l)) else None
  }

  // ---- Each token is consumed at most once ---------------------------------------------

  predicate ConsumedOk(s: State, hash: nat) {
    && s.consumed[hash] <= 1
    && (hash in s.consumed ==> hash in s.seen && (hash in s.tokens ==> s.tokens[hash].revoked))
    && (hash in s.tokens ==> hash in s.seen)
  }

  lemma {:induction false} ConsumedByPresent(s: State, q: nat, presented: nat, hash: nat)
    requires ConsumedOk(s, hash) && ConsumedOk(s, presented) && q !in s.requests
    ensures ConsumedOk(Do(s, Present(q, presented)), hash)
  {
  }

  lemma {:induction false} ConsumedStep(s: State, l: Label, hash: nat)
    requires (forall h :: ConsumedOk(s, h)) && Enabled(s, l)
    ensures ConsumedOk(Do(s, l), hash)
  {
    assert ConsumedOk(s, hash);
    if l.Present? {
      assert ConsumedOk(s, l.hash);
      ConsumedByPresent(s, l.q, l.hash, hash);
    }
  }

  lemma {:induction false} TokensConsumedAtMostOnce(run: Run<Label>)
    requires Exec(run).Some?
    ensures forall hash :: ConsumedOk(Exec(run).value, hash)
  {
    if run.Then? {
      TokensConsumedAtMostOnce(run.before);
      forall hash ensures ConsumedOk(Exec(run).value, hash) {
        ConsumedStep(Exec(run.before).value, run.last, hash);
      }
    }
  }

  // The refreshes that exchanged the token: those it let go on to the rotation.
  function Exchanges(run: Run<Label>, hash: nat): nat
    requires Exec(run).Some?
  {
    match run
    case Start => 0
    case Then(before, l) =>
      Exchanges(before, hash) +
      if l.Present? && l.hash == hash && Exec(run).value.requests[l.q].Rotating? then 1 else 0
  }

  lemma {:induction false} ConsumedCountsExchanges(run: Run<Label>, hash: nat)
    requires Exec(run).Some?
    ensures Exec(run).value.consumed[hash] == Exchanges(run, hash) <= 1
    ensures run.Then? && run.last.Abandon? ==> run.last.q !in Exec(run).value.requests
  {
    TokensConsumedAtMostOnce(run);
    assert ConsumedOk(Exec(run).value, hash);
    if run.Then? {
      ConsumedCountsExchanges(run.before, hash);
    }
  }

  // ---- Live tokens never outnumber sessions -------------------------------------------------

  function Live(s: State, user: nat): set<nat> {
    set h | h in s.tokens && s.tokens[h].user == user && !s.tokens[h].revoked
  }

  function HalfDone(s: State, user: nat): set<nat> {
    set q | q in s.requests && s.requests[q] == Rotating(user)
  }

  lemma SubsetSize(a: set<nat>, b: set<nat>)
    requires a <= b
    ensures |a| <= |b|
  {
    if a != b {
      assert b == a + (b - a);
    }
  }

  function Seats(s: State, user: nat): nat {
    |Live(s, user)| + |HalfDone(s, user)|
  }

  lemma SeatsShrink(s: State, s': State, user: nat)
    requires Live(s', user) <= Live(s, user) && HalfDone(s', user) <= HalfDone(s, user)
    ensures Seats(s', user) <= Seats(s, user)
  {
    SubsetSize(Live(s', user), Live(s, user));
    SubsetSize(HalfDone(s', user), HalfDone(s, user));
  }

  lemma Moved(a: set<nat>, a': set<nat>, b: set<nat>, b': set<nat>, x: nat, y: nat)
    requires x in a && a' == a - {x} && y !in b && b' == b + {y}
    ensures |a'| + |b'| == |a| + |b|
  {
  }

  // A rotation first trades a live token for a half-done rotation …
  lemma PresentMoves(s: State, q: nat, hash: nat, user: nat)
    requires q !in s.requests && Usable(s.tokens, hash, s.now) && s.tokens[hash].user == user
    ensures var s' := Do(s, Present(q, hash));
            && hash in Live(s, user) && Live(s', user) == Live(s, user) - {hash}
            && q !in HalfDone(s, user) && HalfDone(s', user) == HalfDone(s, user) + {q}
  {
    var s' := Do(s, Present(q, hash));
    forall h
      ensures h in Live(s', user) <==> h in Live(s, user) && h != hash
    {
    }
    forall p
      ensures p in HalfDone(s', user) <==> p in HalfDone(s, user) || p == q
    {
    }
  }

  lemma SeatsPresent(s: State, q: nat, hash: nat, user: nat)
    requires q !in s.requests
    ensures Seats(Do(s, Present(q, hash)), user) <= Seats(s, user)
  {
    var s' := Do(s, Present(q, hash));
    if Usable(s.tokens, hash, s.now) && s.tokens[hash].user == user {
      PresentMoves(s, q, hash, user);
      Moved(Live(s, user), Live(s', user), HalfDone(s, user), HalfDone(s', user), hash, q);
    } else {
      SeatsShrink(s, s', user);
    }
  }

  // … and then the rotation for the new token.
  lemma PersistMoves(s: State, q: nat, hash: nat, expiresAt: nat, user: nat)
    requires Enabled(s, Persist(q, hash, expiresAt)) && s.requests[q].user == user && hash !in s.tokens
    ensures var s' := Do(s, Persist(q, hash, expiresAt));
            && hash !in Live(s, user) && Live(s', user) == Live(s, user) + {hash}
            && q in HalfDone(s, user) && HalfDone(s', user) == HalfDone(s, user) - {q}
  {
    var s' := Do(s, Persist(q, hash, expiresAt));
    forall h
      ensures h in Live(s', user) <==> h in Live(s, user) || h == hash
    {
    }
    forall p
      ensures p in HalfDone(s', user) <==> p in HalfDone(s, user) && p != q
    {
    }
  }

  lemma SeatsPersist(s: State, q: nat, hash: nat, expiresAt: nat, user: nat)
    requires Enabled(s, Persist(q, hash, expiresAt)) && hash !in s.tokens
    ensures Seats(Do(s, Persist(q, hash, expiresAt)), user) <= Seats(s, user)
  {
    var s' := Do(s, Persist(q, hash, expiresAt));
    if s.requests[q].user == user {
      PersistMoves(s, q, hash, expiresAt, user);
      Moved(HalfDone(s, user), HalfDone(s', user), Live(s, user), Live(s', user), q, hash);
    } else {
      SeatsShrink(s, s', user);
    }
  }

  lemma SeatsLogin(s: State, l: Label, user: nat)
    requires Enabled(s, l) && l.Login?
    ensures Seats(Do(s, l), user) <= Seats(s, user) + if l.user == user then 1 else 0
  {
    var s' := Do(s, l);
    assert HalfDone(s', user) == HalfDone(s, user);
    var most := Live(s, user) + if l.user == user then {l.hash} else {};
    SubsetSize(Live(s', user), most);
  }

  lemma SeatsRevoke(s: State, l: Label, user: nat)
    requires Enabled(s, l) && !l.Login? && !l.Present? && !l.Persist?
    ensures Seats(Do(s, l), user) <= Seats(s, user)
  {
    SeatsShrink(s, Do(s, l), user);
  }

  // A user's live tokens and rotations in progress never exceed their logins: a
  // stolen and re-presented token creates no extra session.
  lemma {:induction false} LiveTokensWithinSessions(run: Run<Label>, user: nat)
    requires Exec(run).Some?
    ensures Seats(Exec(run).value, user) <= Exec(run).value.sessions[user]
  {
    if run.Then? {
      LiveTokensWithinSessions(run.before, user);
      var s := Exec(run.before).value;
      forall h | h in s.tokens
        ensures h in s.seen
      {
        TokensConsumedAtMostOnce(run.before);
        assert ConsumedOk(s, h);
      }
      if run.last.Login? {
        SeatsLogin(s, run.last, user);
      } else if run.last.Present? {
        SeatsPresent(s, run.last.q, run.last.hash, user);
      } else if run.last.Persist? {
        SeatsPersist(s, run.last.q, run.last.hash, run.last.expiresAt, user);
      } else {
        SeatsRevoke(s, run.last, user);
      }
    }
  }

  // ---- What ends a token --------------------------------------------------------------------

  // The step revokes or deletes the token.
  predicate Takes(s: State, l: Label, hash: nat, user: nat) {
    match l
    case Present(_, presented) => presented == hash && Usable(s.tokens, hash, s.now)
    case Logout(presented) => presented == hash
    case Purge(purged) => purged == hash && hash in s.tokens && s.tokens[hash].expiresAt < s.now
    case RevokeUser(revoked) => revoked == user
    case Punish(q) => q in s.requests && s.requests[q] == Replayed(user)
    case _ => false
  }

  // A live token ends by its own exchange or logout, by the purge once it has expired,
  // or by the revocation of its own user's set: another user's replay leaves it alone.
  lemma {:induction false} TakenIff(s: State, l: Label, hash: nat, user: nat)
    requires Enabled(s, l) && ConsumedOk(s, hash) && hash in Live(s, user)
    ensures hash !in Live(Do(s, l), user) <==> Takes(s, l, hash, user)
    ensures !Takes(s, l, hash, user) ==> Do(s, l).tokens[hash] == s.tokens[hash]
  {
  }

  // Revoking a user's set leaves no live token of that user, and every other user's.
  lemma {:induction false} RevocationIsPersonal(s: State, l: Label, user: nat)
    requires Enabled(s, l) && (l.RevokeUser? || l.Punish?)
    ensures var revoked := if l.RevokeUser? then l.user else s.requests[l.q].user;
            Live(Do(s, l), user) == if user == revoked then {} else Live(s, user)
  {
  }

  // Anybody may log out or be revoked, and any request die, at any time; what is revoked
  // or has expired may be purged.
  lemma {:induction false} NothingWaits(s: State, hash: nat, user: nat, q: nat)
    ensures Enabled(s, Logout(hash)) && Enabled(s, RevokeUser(user))
    ensures q in s.requests ==> Enabled(s, Abandon(q))
    ensures hash in s.tokens && hash !in Live(s, s.tokens[hash].user) ==> Enabled(s, Purge(hash))
    ensures hash in s.tokens && s.tokens[hash].expiresAt < s.now ==> Enabled(s, Purge(hash))
  {
  }

  predicate Gone(s: State, hash: nat) {
    hash in s.seen && (hash in s.tokens ==> s.tokens[hash].revoked)
  }

  // No hash is issued twice, and no revocation is undone.
  lemma {:induction false} GoneStays(s: State, l: Label, hash: nat)
    requires Enabled(s, l) && Gone(s, hash)
    ensures Gone(Do(s, l), hash)
  {
  }

  // No step after `from` took the token.
  ghost predicate Spared(from: Run<Label>, run: Run<Label>, hash: nat, user: nat)
    requires Exec(run).Some?
  {
    run == from ||
    (run.Then? && Spared(from, run.before, hash, user) && !Takes(Exec(run.before).value, run.last, hash, user))
  }

  // Along every continuation a live token is live, with its user and its expiry,
  // exactly while no step has taken it.
  lemma {:induction false} LiveIffSpared(from: Run<Label>, run: Run<Label>, hash: nat, user: nat)
    requires Exec(from).Some? && Exec(run).Some? && Prefix(from, run) && hash in Live(Exec(from).value, user)
    ensures hash in Live(Exec(run).value, user) <==> Spared(from, run, hash, user)
    ensures hash !in Live(Exec(run).value, user) ==> Gone(Exec(run).value, hash)
    ensures Spared(from, run, hash, user) ==> Exec(run).value.tokens[hash] == Exec(from).value.tokens[hash]
  {
    if run != from {
      LiveIffSpared(from, run.before, hash, user);
      TokensConsumedAtMostOnce(run.before);
      var s := Exec(run.before).value;
      assert ConsumedOk(s, hash);
      if hash in Live(s, user) {
        TakenIff(s, run.last, hash, user);
      } else {
        GoneStays(s, run.last, hash);
      }
    }
  }

  // A login, and the second half of a rotation, leave a live token with its user.
  lemma {:induction false} IssuedIsLive(s: State, l: Label)
    requires Enabled(s, l) && (l.Login? || l.Persist?)
    ensures var user := if l.Login? then l.user else s.requests[l.q].user;
            && l.hash in Live(Do(s, l), user)
            && Do(s, l).tokens[l.hash].expiresAt == l.expiresAt
            && forall other :: other != user ==> Live(Do(s, l), other) == Live(s, other) - {l.hash}
  {
  }

  // Presenting a token rotates it exactly when it is live and has not expired.
  lemma {:induction false} RotatesIff(s: State, q: nat, hash: nat, user: nat)
    requires q !in s.requests
    ensures var s' := Do(s, Present(q, hash));
            s'.requests[q] == Rotating(user) <==> hash in Live(s, user) && s.now < s.tokens[hash].expiresAt
  {
  }

  // A token presented after its exchange costs its user every live token, and
  // nobody else any.
  lemma {:induction false} ReplayIsPunished(run: Run<Label>, q: nat, hash: nat)
    requires Exec(run).Some? && q !in Exec(run).value.requests
    requires hash in Exec(run).value.consumed && hash in Exec(run).value.tokens
    ensures var s := Exec(run).value;
            var after := Exec(Then(Then(Then(run, Present(q, hash)), Inspect(q)), Punish(q)));
            && after.Some? && after.value.requests == s.requests && after.value.consumed == s.consumed
            && forall user :: Live(after.value, user) == if user == s.tokens[hash].user then {} else Live(s, user)
  {
    TokensConsumedAtMostOnce(run);
    var s := Exec(run).value;
    assert ConsumedOk(s, hash);
    var s1 := Do(s, Present(q, hash));
    var s2 := Do(s1, Inspect(q));
    assert Exec(Then(run, Present(q, hash))) == Some(s1);
    assert Exec(Then(Then(run, Present(q, hash)), Inspect(q))) == Some(s2);
  }

  // A token that only expired, or that is not in the table, costs nobody anything.
  lemma {:induction false} NotAReplay(run: Run<Label>, q: nat, hash: nat)
    requires Exec(run).Some? && q !in Exec(run).value.requests
    requires var s := Exec(run).value;
             hash in s.tokens ==> !s.tokens[hash].revoked && s.tokens[hash].expiresAt <= s.now
    ensures Exec(Then(Then(run, Present(q, hash)), Inspect(q))) == Exec(run)
  {
    var s := Exec(run).value;
    var s1 := Do(s, Present(q, hash));
    assert Exec(Then(run, Present(q, hash))) == Some(s1);
    assert Do(s1, Inspect(q)).requests == s.requests;
  }

  // ---- After a replay ----------------------------------------------------------------------------

  // `run` continues `from` without a login of the user.
  predicate LoggedOut(from: Run<Label>, run: Run<Label>, user: nat) {
    run == from || (run.Then? && LoggedOut(from, run.before, user) && !(run.last.Login? && run.last.user == user))
  }

  ghost predicate LockedOut(s: State, user: nat) {
    Live(s, user) == {} && HalfDone(s, user) == {}
  }

  lemma LockedOutStep(s: State, l: Label, user: nat)
    requires Enabled(s, l) && LockedOut(s, user) && !(l.Login? && l.user == user)
    ensures LockedOut(Do(s, l), user)
  {
    var s' := Do(s, l);
    assert forall h :: h in s.tokens && s.tokens[h].user == user && !s.tokens[h].revoked ==> h in Live(s, user);
    assert forall q :: q in s.requests && s.requests[q] == Rotating(user) ==> q in HalfDone(s, user);
    forall h | h in s'.tokens && s'.tokens[h].user == user
      ensures s'.tokens[h].revoked
    {
    }
    forall q | q in s'.requests
      ensures s'.requests[q] != Rotating(user)
    {
    }
  }

  lemma {:induction false} LockedOutStays(from: Run<Label>, run: Run<Label>, user: nat)
    requires Exec(from).Some? && Exec(run).Some? && LoggedOut(from, run, user) && LockedOut(Exec(from).value, user)
    ensures LockedOut(Exec(run).value, user)
  {
    if run != from {
      LockedOutStays(from, run.before, user);
      LockedOutStep(Exec(run.before).value, run.last, user);
    }
  }

  ghost predicate CanComeAlive(run: Run<Label>, user: nat) {
    exists longer :: LoggedOut(run, longer, user) && Exec(longer).Some? && Live(Exec(longer).value, user) != {}
  }

  // After a replay has revoked the user's set, a live token can appear before the
  // next login exactly when some rotation of the user was half done.
  lemma {:induction false} ReplayLocksOutIff(run: Run<Label>, q: nat, user: nat)
    requires Exec(run).Some? && Enabled(Exec(run).value, Punish(q)) && Exec(run).value.requests[q] == Replayed(user)
    ensures CanComeAlive(Then(run, Punish(q)), user) <==> HalfDone(Exec(run).value, user) != {}
  {
    var s := Exec(run).value;
    var from := Then(run, Punish(q));
    var s1 := Do(s, Punish(q));
    assert Exec(from) == Some(s1);
    assert HalfDone(s1, user) == HalfDone(s, user);
    if p :| p in HalfDone(s, user) {
      var hash := Unused(s.seen);
      var longer := Then(from, Persist(p, hash, s.now + 1));
      var s2 := Do(s1, Persist(p, hash, s.now + 1));
      assert Exec(longer) == Some(s2);
      assert hash in Live(s2, user);
      assert LoggedOut(from, from, user) && LoggedOut(from, longer, user);
    } else {
      assert LockedOut(s1, user);
      forall longer | LoggedOut(from, longer, user) && Exec(longer).Some?
        ensures Live(Exec(longer).value, user) == {}
      {
        LockedOutStays(from, longer, user);
      }
    }
  }
}
