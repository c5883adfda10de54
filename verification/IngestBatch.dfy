/**
 One batch of leads from an ingest key: deduplicated against the workspace and
 against itself, cut to the plan's remaining capacity, stored, and queued for
 research until the monthly limit. Two batches at once are not modelled here.
 */
module IngestBatch {
  import opened Wrappers

  // What the language does to text.
  datatype Text = Text(trim: string -> string, lower: string -> string)

  // Lower-casing twice changes nothing more, nor does trimming a trimmed text again
  // after it was lower-cased.
  ghost predicate Settles(t: Text) {
    && (forall s :: t.lower(t.lower(s)) == t.lower(s))
    && (forall s :: t.trim(t.lower(t.trim(s))) == t.lower(t.trim(s)))
  }

  // A field that is not a string is None.
  datatype Input = Input(name: Option<string>, email: Option<string>)

  datatype Row = Row(name: string, email: Option<string>)

  datatype Answer = Answer(created: nat, skipped: nat, queued: nat)

  const MAX_SHORT := 200

  function Norm(t: Text, s: string): string {
    t.lower(t.trim(s))
  }

  predicate Named(t: Text, l: Input) {
    l.name.Some? && t.trim(l.name.value) != ""
  }

  function Email(t: Text, l: Input): Option<string> {
    if l.email.Some? && Norm(t, l.email.value) != "" then Some(Norm(t, l.email.value)) else None
  }

  function RowOf(t: Text, l: Input): Row
    requires Named(t, l)
  {
    var name := t.trim(l.name.value);
    Row(if |name| <= MAX_SHORT then name else name[..MAX_SHORT], Email(t, l))
  }

  // ---- Which leads of the batch are kept ---------------------------------------------------

  // A lead is kept when it has a name, and its e-mail, if any, is not stored and no
  // earlier named lead has it.
  predicate Kept(t: Text, leads: seq<Input>, stored: set<string>, i: nat)
    requires i < |leads|
  {
    Named(t, leads[i]) &&
    (Email(t, leads[i]).Some? ==>
       Email(t, leads[i]).value !in stored
       && forall j: nat :: j < i && Named(t, leads[j]) ==> Email(t, leads[j]) != Email(t, leads[i]))
  }

  // The kept leads among the first n, in order.
  function Rows(t: Text, leads: seq<Input>, stored: set<string>, n: nat): (rows: seq<Row>)
    requires n <= |leads|
    ensures |rows| <= n
  {
    if n == 0 then []
    else
      var before := Rows(t, leads, stored, n - 1);
      if Kept(t, leads, stored, n - 1) then before + [RowOf(t, leads[n - 1])] else before
  }

  // The loop asks only about stored e-mails that equal one of the batch's, and lower-
  // cases them again.
  function Existing(t: Text, leads: seq<Input>, stored: set<string>): set<string> {
    set s | s in stored && exists l :: l in leads && Email(t, l) == Some(s) :: t.lower(s)
  }

  lemma ExistingIsStored(t: Text, leads: seq<Input>, stored: set<string>, i: nat)
    requires Settles(t) && i < |leads| && Email(t, leads[i]).Some?
    ensures Email(t, leads[i]).value in Existing(t, leads, stored) <==> Email(t, leads[i]).value in stored
  {
    var e := Email(t, leads[i]).value;
    assert t.lower(e) == e;
    if e in stored {
      assert leads[i] in leads && Email(t, leads[i]) == Some(e);
    }
    if e in Existing(t, leads, stored) {
      var s, l :| s in stored && l in leads && Email(t, l) == Some(s) && t.lower(s) == e;
      assert t.lower(s) == s;
    }
  }

  // The e-mails of the named leads among the first n.
  function Seen(t: Text, leads: seq<Input>, n: nat): set<string>
    requires n <= |leads|
  {
    set j | 0 <= j < n && Named(t, leads[j]) && Email(t, leads[j]).Some? :: Email(t, leads[j]).value
  }

  method Dedupe(t: Text, leads: seq<Input>, stored: set<string>) returns (rows: seq<Row>)
    requires Settles(t)
    ensures rows == Rows(t, leads, stored, |leads|)
  {
    var existingEmails := Existing(t, leads, stored);
    var seenEmails: set<string> := {};
    rows := [];
    for i := 0 to |leads|
      invariant rows == Rows(t, leads, stored, i)
      invariant seenEmails + existingEmails == Seen(t, leads, i) + existingEmails && seenEmails <= Seen(t, leads, i)
    {
      var l := leads[i];
      assert Seen(t, leads, i + 1) == Seen(t, leads, i)
        + if Named(t, l) && Email(t, l).Some? then {Email(t, l).value} else {};
      if !Named(t, l) { continue; }
      var email := Email(t, l);
      if email.Some? {
        ExistingIsStored(t, leads, stored, i);
        SeenMeansEarlier(t, leads, i);
        if email.value in existingEmails || email.value in seenEmails { continue; }
        seenEmails := seenEmails + {email.value};
      }
      rows := rows + [RowOf(t, l)];
    }
  }

  lemma SeenMeansEarlier(t: Text, leads: seq<Input>, i: nat)
    requires i < |leads| && Email(t, leads[i]).Some?
    ensures Email(t, leads[i]).value in Seen(t, leads, i)
      <==> exists j: nat :: j < i && Named(t, leads[j]) && Email(t, leads[j]) == Email(t, leads[i])
  {
  }

  // ---- Capacity and the queue ----------------------------------------------------------------

  // reserveLeadCapacity: None is an unlimited plan.
  function Allowed(requested: nat, maxLeads: Option<nat>, count: nat): (allowed: nat)
    ensures allowed <= requested
    ensures maxLeads.Some? && count <= maxLeads.value ==> count + allowed <= maxLeads.value
    ensures allowed < requested ==> maxLeads.Some? && count + allowed >= maxLeads.value
  {
    if maxLeads.None? || requested + count <= maxLeads.value then requested
    else if count >= maxLeads.value then 0
    else maxLeads.value - count
  }

  // Research jobs queued for the first n leads: the first refused quota stops, a
  // queue failure only loses that job.
  function Queued(quota: nat -> bool, queue: nat -> bool, n: nat): (queued: nat)
    ensures queued <= n
  {
    if n == 0 then 0
    else Queued(quota, queue, n - 1) + if queue(n - 1) && (forall k: nat :: k < n ==> quota(k)) then 1 else 0
  }

  method Enqueue(created: nat, quota: nat -> bool, queue: nat -> bool) returns (queued: nat)
    ensures queued == Queued(quota, queue, created)
  {
    queued := 0;
    for i: nat := 0 to created
      invariant queued == Queued(quota, queue, i) && forall k: nat :: k < i ==> quota(k)
    {
      if !quota(i) {
        NothingQueuedAfter(quota, queue, i, created);
        break;
      }
      if queue(i) { queued := queued + 1; }
    }
  }

  lemma {:induction false} NothingQueuedAfter(quota: nat -> bool, queue: nat -> bool, refused: nat, n: nat)
    requires refused <= n && (refused < n ==> !quota(refused))
    ensures Queued(quota, queue, n) == Queued(quota, queue, refused)
  {
    if refused < n {
      NothingQueuedAfter(quota, queue, refused, n - 1);
    }
  }

  // The leads before `limit` whose job the queue took.
  function TookJob(queue: nat -> bool, limit: nat): set<nat> {
    set k: nat | k < limit && queue(k)
  }

  lemma {:induction false} OneMoreTaken(queue: nat -> bool, limit: nat)
    ensures |TookJob(queue, limit + 1)| == |TookJob(queue, limit)| + if queue(limit) then 1 else 0
  {
    var before := TookJob(queue, limit);
    assert TookJob(queue, limit + 1) == before + if queue(limit) then {limit} else {};
  }

  lemma {:induction false} QueuedWithinQuota(quota: nat -> bool, queue: nat -> bool, n: nat)
    requires forall k: nat :: k < n ==> quota(k)
    ensures Queued(quota, queue, n) == |TookJob(queue, n)|
  {
    if n > 0 {
      QueuedWithinQuota(quota, queue, n - 1);
      OneMoreTaken(queue, n - 1);
    }
  }

  // Queued are the leads before the first refused quota, each whose job the queue took.
  lemma {:induction false} QueuedUntilRefused(quota: nat -> bool, queue: nat -> bool, n: nat, refused: nat)
    requires refused <= n && (refused < n ==> !quota(refused)) && forall k: nat :: k < refused ==> quota(k)
    ensures Queued(quota, queue, n) == |TookJob(queue, refused)|
  {
    NothingQueuedAfter(quota, queue, refused, n);
    QueuedWithinQuota(quota, queue, refused);
  }

  // ---- No e-mail twice ---------------------------------------------------------------------

  function Emails(rows: seq<Row>): set<string> {
    set r | r in rows && r.email.Some? :: r.email.value
  }

  predicate DistinctEmails(rows: seq<Row>) {
    forall i, j :: 0 <= i < j < |rows| && rows[i].email.Some? ==> rows[i].email != rows[j].email
  }

  // Every e-mail is trimmed and in lower case already.
  predicate InNormalForm(t: Text, rows: seq<Row>) {
    forall r :: r in rows && r.email.Some? ==> Norm(t, r.email.value) == r.email.value
  }

  // Each kept row's e-mail is a named lead's, and not stored.
  lemma {:induction false} RowsAreKept(t: Text, leads: seq<Input>, stored: set<string>, n: nat)
    requires n <= |leads|
    ensures var rows := Rows(t, leads, stored, n);
      && (forall r :: r in rows && r.email.Some? ==> r.email.value in Seen(t, leads, n) && r.email.value !in stored)
      && DistinctEmails(rows)
  {
    if n > 0 {
      RowsAreKept(t, leads, stored, n - 1);
    }
  }

  // The first lead with an e-mail that is not stored is kept.
  lemma {:induction false} NewEmailsAreKept(t: Text, leads: seq<Input>, stored: set<string>, n: nat)
    requires n <= |leads|
    ensures Emails(Rows(t, leads, stored, n)) == Seen(t, leads, n) - stored
  {
    if n > 0 {
      NewEmailsAreKept(t, leads, stored, n - 1);
      var before, l := Rows(t, leads, stored, n - 1), leads[n - 1];
      assert Seen(t, leads, n) == Seen(t, leads, n - 1)
        + if Named(t, l) && Email(t, l).Some? then {Email(t, l).value} else {};
      if Email(t, l).Some? {
        SeenMeansEarlier(t, leads, n - 1);
      }
      if Kept(t, leads, stored, n - 1) {
        var row := RowOf(t, l);
        assert row in before + [row];
        assert Emails(before + [row]) == Emails(before) + if row.email.Some? then {row.email.value} else {};
      }
    }
  }

  // The name a row keeps: trimmed, and no longer than the column.
  predicate IsNameOf(t: Text, name: string, l: Input) {
    l.name.Some? && name <= t.trim(l.name.value)
    && (if |t.trim(l.name.value)| <= MAX_SHORT then name == t.trim(l.name.value) else |name| == MAX_SHORT)
  }

  // Every row is a named lead's, under that lead's name and with its e-mail.
  lemma {:induction false} RowIsALead(t: Text, leads: seq<Input>, stored: set<string>, n: nat, k: nat) returns (i: nat)
    requires n <= |leads| && k < |Rows(t, leads, stored, n)|
    ensures i < n && IsNameOf(t, Rows(t, leads, stored, n)[k].name, leads[i]) && t.trim(leads[i].name.value) != ""
    ensures match leads[i].email
      case Some(e) => Rows(t, leads, stored, n)[k].email == if Norm(t, e) != "" then Some(Norm(t, e)) else None
      case None => Rows(t, leads, stored, n)[k].email == None
  {
    if k < |Rows(t, leads, stored, n - 1)| {
      i := RowIsALead(t, leads, stored, n - 1, k);
    } else {
      i := n - 1;
    }
  }

  // A lead that has a name and gives no e-mail.
  predicate NameOnly(t: Text, l: Input) {
    l.name.Some? && t.trim(l.name.value) != "" && (l.email.Some? ==> Norm(t, l.email.value) == "")
  }

  function NameOnlyLeads(t: Text, leads: seq<Input>, n: nat): seq<Input>
    requires n <= |leads|
  {
    if n == 0 then []
    else NameOnlyLeads(t, leads, n - 1) + if NameOnly(t, leads[n - 1]) then [leads[n - 1]] else []
  }

  function NoEmailRows(rows: seq<Row>): seq<Row> {
    if rows == [] then []
    else NoEmailRows(rows[..|rows| - 1]) + if rows[|rows| - 1].email.None? then [rows[|rows| - 1]] else []
  }

  // The rows without an e-mail are the leads that gave a name only: all of them, in
  // order, each under its name.
  lemma {:induction false} NameOnlyLeadsAreKept(t: Text, leads: seq<Input>, stored: set<string>, n: nat)
    requires n <= |leads|
    ensures var rows, named := NoEmailRows(Rows(t, leads, stored, n)), NameOnlyLeads(t, leads, n);
      |rows| == |named| && forall k :: 0 <= k < |rows| ==> IsNameOf(t, rows[k].name, named[k])
  {
    if n > 0 {
      NameOnlyLeadsAreKept(t, leads, stored, n - 1);
      var before, rows := Rows(t, leads, stored, n - 1), Rows(t, leads, stored, n);
      if Kept(t, leads, stored, n - 1) {
        assert rows[..|rows| - 1] == before;
      }
    }
  }

  // Any part of the kept rows goes with the stored ones without repeating an e-mail.
  lemma BatchFits(t: Text, leads: seq<Input>, rows: seq<Row>, n: nat)
    requires Settles(t) && n <= |Rows(t, leads, Emails(rows), |leads|)|
    ensures var all := rows + Rows(t, leads, Emails(rows), |leads|)[..n];
      && (DistinctEmails(rows) ==> DistinctEmails(all))
      && (InNormalForm(t, rows) ==> InNormalForm(t, all))
  {
    var kept := Rows(t, leads, Emails(rows), |leads|);
    RowsAreKept(t, leads, Emails(rows), |leads|);
    var all := rows + kept[..n];
    forall r | r in kept && r.email.Some?
      ensures r.email.value !in Emails(rows) && Norm(t, r.email.value) == r.email.value {
      SeenIsNormal(t, leads, |leads|, r.email.value);
    }
    forall i, j | 0 <= i < j < |all| && all[i].email.Some? && DistinctEmails(rows)
      ensures all[i].email != all[j].email
    {
      if i < |rows| <= j {
        assert all[i] in rows && all[j] in kept;
      }
    }
  }

  lemma SeenIsNormal(t: Text, leads: seq<Input>, n: nat, e: string)
    requires Settles(t) && n <= |leads| && e in Seen(t, leads, n)
    ensures Norm(t, e) == e
  {
    var j :| 0 <= j < n && Named(t, leads[j]) && Email(t, leads[j]) == Some(e);
    assert e == Norm(t, leads[j].email.value);
  }

  // ---- The leads of a workspace -----------------------------------------------------------------

  class LeadTable {
    var rows: seq<Row>

    method Ingest(t: Text, leads: seq<Input>, maxLeads: Option<nat>, research: bool,
                  quota: nat -> bool, queue: nat -> bool)
      returns (answer: Answer)
      requires Settles(t)
      modifies this
      ensures var kept := Rows(t, leads, Emails(old(rows)), |leads|);
        rows == old(rows) + kept[..Allowed(|kept|, maxLeads, |old(rows)|)]
      ensures answer.created == |rows| - |old(rows)| && answer.created + answer.skipped == |leads|
      ensures answer.queued == if research then Queued(quota, queue, answer.created) else 0
      ensures DistinctEmails(old(rows)) ==> DistinctEmails(rows)
      ensures InNormalForm(t, old(rows)) ==> InNormalForm(t, rows)
    {
      var kept := Dedupe(t, leads, Emails(rows));
      if |kept| == 0 { return Answer(0, |leads|, 0); }
      var allowed := Allowed(|kept|, maxLeads, |rows|);
      BatchFits(t, leads, rows, allowed);
      for i := 0 to allowed
        invariant rows == old(rows) + kept[..i]
      {
        rows := rows + [kept[i]];
      }
      var queued := 0;
      if research { queued := Enqueue(allowed, quota, queue); }
      answer := Answer(allowed, |leads| - allowed, queued);
    }
  }

  // ---- Stored e-mails in another form ---------------------------------------------------------

  // How many leads of the batch are looked at until n rows are kept.
  function Reach(t: Text, leads: seq<Input>, stored: set<string>, n: nat, upto: nat): (m: nat)
    requires upto <= |leads| && n <= |Rows(t, leads, stored, upto)|
    ensures m <= upto && Rows(t, leads, stored, m) == Rows(t, leads, stored, upto)[..n]
  {
    if n == |Rows(t, leads, stored, upto)| then upto else Reach(t, leads, stored, n, upto - 1)
  }

  // No stored row has the same e-mail, read with letter case and outer spaces ignored,
  // as a row of the batch.
  ghost predicate NoneRepeated(t: Text, stored: set<string>, batch: seq<Row>) {
    forall s, r :: s in stored && r in batch && r.email.Some? ==> Norm(t, s) != r.email.value
  }

  // Of the n rows that are stored none repeats an e-mail exactly when no stored e-mail
  // out of normal form, whose normal form is not stored as well, is meant by a named
  // lead reached before the capacity is used up.
  lemma {:induction false} NoEmailIsRepeatedIff(t: Text, leads: seq<Input>, stored: set<string>, n: nat)
    requires n <= |Rows(t, leads, stored, |leads|)|
    ensures NoneRepeated(t, stored, Rows(t, leads, stored, |leads|)[..n])
      <==> forall s :: s in stored && Norm(t, s) != s && Norm(t, s) !in stored ==>
                         Norm(t, s) !in Seen(t, leads, Reach(t, leads, stored, n, |leads|))
  {
    var m := Reach(t, leads, stored, n, |leads|);
    var batch := Rows(t, leads, stored, m);
    NewEmailsAreKept(t, leads, stored, m);
    forall s | s in stored
      ensures (exists r :: r in batch && r.email == Some(Norm(t, s))) <==> Norm(t, s) in Emails(batch)
    {
    }
  }

  // Any stored e-mail that is not in normal form is missed: a named lead with its normal
  // form is kept beside it.
  lemma MixedCaseIsMissed(t: Text, name: string, s: string) returns (leads: seq<Input>)
    requires Settles(t) && t.trim(name) != "" && Norm(t, s) != s && Norm(t, s) != ""
    ensures |Rows(t, leads, {s}, |leads|)| == 1 && !NoneRepeated(t, {s}, Rows(t, leads, {s}, |leads|))
  {
    var e := Norm(t, s);
    leads := [Input(Some(name), Some(e))];
    assert Norm(t, e) == e;
    assert Email(t, leads[0]) == Some(e) && Kept(t, leads, {s}, 0);
    var rows := Rows(t, leads, {s}, |leads|);
    assert rows == Rows(t, leads, {s}, 0) + [RowOf(t, leads[0])];
    assert rows[0] in rows && rows[0].email == Some(e);
  }

  // ---- The same batch again ----------------------------------------------------------------------------

  // Once a batch is stored whole, sending it again keeps only leads without an e-mail.
  lemma SecondTimeKeepsNoEmail(t: Text, leads: seq<Input>, stored: set<string>)
    ensures var again := stored + Emails(Rows(t, leads, stored, |leads|));
      forall r :: r in Rows(t, leads, again, |leads|) ==> r.email.None?
  {
    var again := stored + Emails(Rows(t, leads, stored, |leads|));
    NewEmailsAreKept(t, leads, stored, |leads|);
    RowsAreKept(t, leads, again, |leads|);
  }
}
