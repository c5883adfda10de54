/**
 The InboxReplySend table and the SENT rows of the contact ledger, as the reply
 routes use them. Every statement the two handlers issue is given twice: as a
 function of the table (what the protocol steps are built from) and as a method
 that updates the table in place and is proved to do exactly that.
 */
module ReplyRows {
  import opened Wrappers

  // INBOX_SEND_IN_FLIGHT_MS
  const IN_FLIGHT_MS: nat := 300_000

  // The unique (workspaceId, idempotencyKey) pair.
  datatype Key = Key(workspace: nat, token: nat)

  // The OutreachSent row a reply answers.
  datatype Thread = Thread(workspace: nat, id: nat)

  datatype Status = SENDING | SENT | FAILED

  datatype Row = Row(thread: Thread, status: Status, attemptedAt: nat)

  type Table = map<Key, Row>

  // findFirst { outreachSentId, status: 'SENDING' } finds something.
  predicate Open(t: Table, thread: Thread) {
    exists k :: k in t && t[k].thread == thread && t[k].status == SENDING
  }

  // `updateMany` with a guard on the status changes the row or leaves the table alone.
  predicate Matches(t: Table, k: Key, guard: set<Status>) {
    k in t && t[k].status in guard
  }

  function Restatus(t: Table, k: Key, guard: set<Status>, status: Status): (t': Table)
    ensures t'.Keys == t.Keys
  {
    if Matches(t, k, guard) then t[k := t[k].(status := status)] else t
  }

  function Reclaim(t: Table, k: Key, now: nat): (t': Table)
    ensures t'.Keys == t.Keys
  {
    if Matches(t, k, {FAILED}) then t[k := t[k].(status := SENDING, attemptedAt := now)] else t
  }

  // None is the unique-key violation P2002.
  function Insert(t: Table, k: Key, thread: Thread, now: nat): Option<Table> {
    if k in t then None else Some(t[k := Row(thread, SENDING, now)])
  }

  // What the claim transaction's guards accept.
  predicate Grants(t: Table, k: Key, thread: Thread, priorFailed: bool) {
    !Open(t, thread) && if priorFailed then Matches(t, k, {FAILED}) else k !in t
  }

  function Claimed(t: Table, k: Key, thread: Thread, priorFailed: bool, now: nat): Table {
    if priorFailed then Reclaim(t, k, now) else t[k := Row(thread, SENDING, now)]
  }

  // The unguarded claim of a new key is the insert, which a taken key refuses.
  lemma InsertClaims(t: Table, k: Key, thread: Thread, now: nat)
    ensures Insert(t, k, thread, now) == if k in t.Keys then None else Some(Claimed(t, k, thread, false, now))
  {
  }

  // Younger than the window: the request may still be running.
  predicate InFlight(row: Row, now: nat) {
    now < row.attemptedAt + IN_FLIGHT_MS
  }

  class ReplyStore {
    var rows: Table
    var ledger: multiset<Key>

    constructor ()
      ensures rows == map[] && ledger == multiset{}
    {
      rows, ledger := map[], multiset{};
    }

    method ReclaimFailed(k: Key, now: nat) returns (count: nat)
      modifies this`rows
      ensures rows == Reclaim(old(rows), k, now)
      ensures count == if Matches(old(rows), k, {FAILED}) then 1 else 0
    {
      count := 0;
      if k in rows && rows[k].status == FAILED {
        rows := rows[k := rows[k].(status := SENDING, attemptedAt := now)];
        count := 1;
      }
    }

    method Create(k: Key, thread: Thread, now: nat) returns (ok: bool)
      modifies this`rows
      ensures ok <==> Insert(old(rows), k, thread, now).Some?
      ensures rows == if ok then Insert(old(rows), k, thread, now).value else old(rows)
    {
      ok := k !in rows;
      if ok {
        rows := rows[k := Row(thread, SENDING, now)];
      }
    }

    // The claim transaction's body under the thread's row lock: the open-send
    // check, then a reclaim or an insert; a refused claim leaves no trace.
    method Claim(k: Key, thread: Thread, priorFailed: bool, now: nat) returns (claimed: bool)
      modifies this`rows
      ensures claimed <==> Grants(old(rows), k, thread, priorFailed)
      ensures rows == if claimed then Claimed(old(rows), k, thread, priorFailed, now) else old(rows)
    {
      if Open(rows, thread) {
        return false;
      }
      if priorFailed {
        var count := ReclaimFailed(k, now);
        claimed := count != 0;
      } else {
        claimed := Create(k, thread, now);
      }
    }

    // The catch block of sendMail, and the 'not_sent' half of the resolve route.
    method Fail(k: Key) returns (count: nat)
      modifies this`rows
      ensures rows == Restatus(old(rows), k, {SENDING}, FAILED)
      ensures count == if Matches(old(rows), k, {SENDING}) then 1 else 0
    {
      count := 0;
      if k in rows && rows[k].status == SENDING {
        rows := rows[k := rows[k].(status := FAILED)];
        count := 1;
      }
    }

    // The finalise transaction: an unguarded status write and the ledger event.
    method Finalise(k: Key)
      requires k in rows
      modifies this
      ensures rows == Restatus(old(rows), k, {SENDING, SENT, FAILED}, SENT)
      ensures ledger == old(ledger) + multiset{k}
    {
      assert rows[k].status.SENDING? || rows[k].status.SENT? || rows[k].status.FAILED?;
      rows := rows[k := rows[k].(status := SENT)];
      ledger := ledger + multiset{k};
    }

    // The fallback when that transaction reported failure: the ledger event is
    // only recorded, by the next statement, if this one found the row SENDING.
    method MarkSent(k: Key) returns (count: nat)
      modifies this`rows
      ensures rows == Restatus(old(rows), k, {SENDING}, SENT)
      ensures count == if Matches(old(rows), k, {SENDING}) then 1 else 0
    {
      count := 0;
      if k in rows && rows[k].status == SENDING {
        rows := rows[k := rows[k].(status := SENT)];
        count := 1;
      }
    }

    // recordContactEvent
    method Record(k: Key)
      modifies this`ledger
      ensures ledger == old(ledger) + multiset{k}
    {
      ledger := ledger + multiset{k};
    }

    // The 'sent' half of the resolve route: an array transaction, so the event
    // is created whether or not the guarded claim matched.
    method ResolveSent(k: Key) returns (count: nat)
      modifies this
      ensures rows == Restatus(old(rows), k, {SENDING}, SENT)
      ensures count == if Matches(old(rows), k, {SENDING}) then 1 else 0
      ensures ledger == old(ledger) + multiset{k}
    {
      count := 0;
      if k in rows && rows[k].status == SENDING {
        rows := rows[k := rows[k].(status := SENT)];
        count := 1;
      }
      ledger := ledger + multiset{k};
    }
  }
}
