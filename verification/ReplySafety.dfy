/**
 Safety of the reply protocol over every run: one open reply per thread, one
 acceptance per idempotency key, one contact event per reply.
 */
module ReplySafety {
  import opened Wrappers
  import opened ReplyRows
  import opened ReplyProtocol

  // ---- Safety of the row lock: no assumption at all ----------------------------

  predicate LockOk(s: State, r: nat)
    requires r in s.requests
  {
    var q := s.requests[r];
    && (q.InTransaction() ==> q.thread in s.locks && s.locks[q.thread] == r)
    && (q.phase.Checked? ==> !Open(s.rows, q.thread))
    && ((q.phase.Ready? || q.InTransaction()) && q.phase.priorFailed ==>
            q.key in s.rows && s.rows[q.key].thread == q.thread)
  }

  ghost predicate LockInv(s: State) {
    forall r :: r in s.requests ==> LockOk(s, r)
  }

  ghost predicate OneOpen(t: Table) {
    forall j, k :: j in t && k in t && t[j].status == SENDING && t[k].status == SENDING
                   && t[j].thread == t[k].thread ==>
      j == k
  }

  // Rows keep their keys and threads, and none becomes SENDING.
  ghost predicate Settles(t: Table, t': Table) {
    && t'.Keys == t.Keys
    && forall k :: k in t ==> t'[k].thread == t[k].thread && (t'[k].status == SENDING ==> t[k] == t'[k])
  }

  lemma LockInvTables(s: State, s': State)
    requires LockInv(s) && OneOpen(s.rows)
    requires Settles(s.rows, s'.rows) && s'.requests == s.requests && s'.locks == s.locks
    ensures LockInv(s') && OneOpen(s'.rows)
  {
    forall r | r in s'.requests
      ensures LockOk(s', r)
    {
      assert LockOk(s, r);
    }
  }

  lemma SettlesUnlessClaim(s: State, q: Request, action: Action)
    requires CanAct(q.phase, action) && !action.Claim?
    ensures Settles(s.rows, NextRows(s, q, action))
  {
  }

  // The open-send check found nothing, and the lock kept it so.
  lemma OneOpenClaim(s: State, r: nat, commit: Commit)
    requires LockInv(s) && OneOpen(s.rows) && Enabled(s, Act(r, Claim(commit)))
    ensures OneOpen(DoAct(s, r, Claim(commit)).rows)
  {
    assert LockOk(s, r) && !Open(s.rows, s.requests[r].thread);
  }

  // The claimer holds the thread's lock, so no other request is past the
  // open-send check on this thread when the new SENDING row appears.
  lemma LockInvClaim(s: State, r: nat, commit: Commit)
    requires LockInv(s) && OneOpen(s.rows) && Enabled(s, Act(r, Claim(commit)))
    ensures LockInv(DoAct(s, r, Claim(commit))) && OneOpen(DoAct(s, r, Claim(commit)).rows)
  {
    var q, s' := s.requests[r], DoAct(s, r, Claim(commit));
    OneOpenClaim(s, r, commit);
    assert LockOk(s, r);
    assert forall k :: k in s.rows && k != q.key ==> s'.rows[k] == s.rows[k];
    forall o | o in s'.requests
      ensures LockOk(s', o)
    {
      if o != r {
        assert LockOk(s, o);
        assert s.requests[o].phase.Checked? ==> !Open(s.rows, s.requests[o].thread);
      }
    }
  }

  lemma LockOkOwn(s: State, r: nat, action: Action)
    requires Enabled(s, Act(r, action)) && LockOk(s, r) && !action.Claim?
    ensures LockOk(DoAct(s, r, action), r)
  {
  }

  lemma LockOkOther(s: State, r: nat, action: Action, o: nat)
    requires Enabled(s, Act(r, action)) && LockOk(s, r) && o in s.requests && LockOk(s, o) && o != r
    requires Settles(s.rows, NextRows(s, s.requests[r], action))
    ensures LockOk(DoAct(s, r, action), o)
  {
  }

  lemma {:induction false} LockInvAct(s: State, r: nat, action: Action)
    requires LockInv(s) && OneOpen(s.rows) && Enabled(s, Act(r, action)) && !action.Claim?
    ensures LockInv(DoAct(s, r, action)) && OneOpen(DoAct(s, r, action).rows)
  {
    var s' := DoAct(s, r, action);
    SettlesUnlessClaim(s, s.requests[r], action);
    forall o | o in s'.requests
      ensures LockOk(s', o)
    {
      assert LockOk(s, r);
      if o == r { LockOkOwn(s, r, action); } else { LockOkOther(s, r, action, o); }
    }
    assert OneOpen(s'.rows);
  }

  lemma LockInvResolution(s: State, v: nat, commit: Commit)
    requires LockInv(s) && OneOpen(s.rows) && v in s.resolutions
    ensures LockInv(DoResolve(s, v, commit)) && OneOpen(DoResolve(s, v, commit).rows)
  {
    assert Settles(s.rows, DoResolve(s, v, commit).rows);
    LockInvTables(s, DoResolve(s, v, commit));
  }

  lemma {:induction false} LockInvStep(s: State, l: Label)
    requires LockInv(s) && OneOpen(s.rows) && Enabled(s, l)
    ensures LockInv(Do(s, l)) && OneOpen(Do(s, l).rows)
  {
    if l.Act? {
      if l.action.Claim? { LockInvClaim(s, l.r, l.action.commit); } else { LockInvAct(s, l.r, l.action); }
    } else if l.Arrive? {
      forall r | r in s.requests
        ensures LockOk(Do(s, l), r)
      {
        assert LockOk(s, r);
      }
    } else if l.CommitResolution? {
      LockInvResolution(s, l.v, l.commit);
    } else {
      LockInvTables(s, Do(s, l));
    }
  }

  // ---- Ownership of a key's claim: while "not sent" frees no live one --------------

  predicate Active(q: Request) {
    q.Owns() || q.phase.Recording?
  }

  predicate HoldsRow(t: Table, q: Request) {
    && (q.Owns() ==>
          && q.key in t && t[q.key].thread == q.thread
          && (t[q.key].status == SENT || t[q.key] == Row(q.thread, SENDING, q.phase.claimedAt)))
    && (q.phase.Recording? ==> q.key in t && t[q.key].status == SENT)
  }

  predicate BothLive(q: Request, p: Request, k: Key) {
    q.key == k && p.key == k && Active(q) && Active(p)
  }

  // Each live request of the key holds its row, and there is at most one.
  ghost predicate HoldInv(s: State, k: Key) {
    && (forall r :: r in s.requests && s.requests[r].key == k ==> HoldsRow(s.rows, s.requests[r]))
    && (forall r, o :: r in s.requests && o in s.requests && BothLive(s.requests[r], s.requests[o], k) ==> r == o)
  }

  // What the claim's guard saw: the key had no row, or a FAILED one.
  lemma {:induction false} ClaimTakesFreeKey(s: State, r: nat, commit: Commit)
    requires Enabled(s, Act(r, Claim(commit))) && LockInv(s) && HoldInv(s, s.requests[r].key)
    requires NextRows(s, s.requests[r], Claim(commit)) != s.rows
    ensures forall o :: o in s.requests && Active(s.requests[o]) ==> s.requests[o].key != s.requests[r].key
    ensures !Matches(s.rows, s.requests[r].key, {SENDING, SENT})
    ensures var q := s.requests[r];
            NextRows(s, q, Claim(commit)) == s.rows[q.key := Row(q.thread, SENDING, s.now)]
  {
    var q := s.requests[r];
    assert LockOk(s, r);
    assert q.key !in s.rows || s.rows[q.key].status == FAILED;
    forall o | o in s.requests && Active(s.requests[o])
      ensures s.requests[o].key != q.key
    {
      assert s.requests[o].key == q.key ==> HoldsRow(s.rows, s.requests[o]);
    }
  }

  // A step of a request writes at most its own row, and only the claim adds one.
  lemma {:induction false} OtherRowsKept(s: State, q: Request, action: Action)
    requires CanAct(q.phase, action)
    ensures forall k :: k in s.rows ==> k in NextRows(s, q, action)
    ensures forall k :: k in s.rows && k != q.key ==> NextRows(s, q, action)[k] == s.rows[k]
    ensures forall k :: k !in s.rows && k != q.key ==> k !in NextRows(s, q, action)
    ensures !action.Claim? ==> NextRows(s, q, action).Keys == s.rows.Keys
    ensures !action.Claim? && !Active(q) ==> NextRows(s, q, action) == s.rows
  {
  }

  lemma {:induction false} HoldStep(s: State, q: Request, action: Action)
    requires CanAct(q.phase, action) && !action.Claim? && HoldsRow(s.rows, q)
    ensures HoldsRow(NextRows(s, q, action), q.(phase := NextPhase(s, q, action)))
    ensures Active(q.(phase := NextPhase(s, q, action))) ==> Active(q)
  {
  }

  // A claim that writes its row is the only live request of the key.
  lemma {:induction false} HoldInvTaken(s: State, r: nat, commit: Commit)
    requires Enabled(s, Act(r, Claim(commit))) && LockInv(s) && HoldInv(s, s.requests[r].key)
    requires NextRows(s, s.requests[r], Claim(commit)) != s.rows
    ensures HoldInv(DoAct(s, r, Claim(commit)), s.requests[r].key)
  {
    ClaimTakesFreeKey(s, r, commit);
  }

  // One that does not is over.
  lemma {:induction false} HoldInvLost(s: State, r: nat, commit: Commit)
    requires Enabled(s, Act(r, Claim(commit))) && HoldInv(s, s.requests[r].key)
    requires NextRows(s, s.requests[r], Claim(commit)) == s.rows && !Wins(s.rows, s.requests[r])
    ensures HoldInv(DoAct(s, r, Claim(commit)), s.requests[r].key)
  {
  }

  lemma {:induction false} HoldInvRolledBack(s: State, r: nat)
    requires Enabled(s, Act(r, Claim(RolledBack))) && HoldInv(s, s.requests[r].key)
    ensures HoldInv(DoAct(s, r, Claim(RolledBack)), s.requests[r].key)
  {
  }

  lemma {:induction false} WinningWrites(s: State, r: nat, commit: Commit)
    requires Enabled(s, Act(r, Claim(commit))) && Wins(s.rows, s.requests[r]) && !commit.RolledBack?
    ensures NextRows(s, s.requests[r], Claim(commit)) != s.rows
  {
    var q := s.requests[r];
    assert NextRows(s, q, Claim(commit))[q.key].status == SENDING;
  }

  lemma {:induction false} HoldInvClaim(s: State, r: nat, commit: Commit)
    requires Enabled(s, Act(r, Claim(commit))) && LockInv(s) && HoldInv(s, s.requests[r].key)
    ensures HoldInv(DoAct(s, r, Claim(commit)), s.requests[r].key)
  {
    if commit.RolledBack? {
      HoldInvRolledBack(s, r);
    } else if Wins(s.rows, s.requests[r]) {
      WinningWrites(s, r, commit);
      HoldInvTaken(s, r, commit);
    } else {
      HoldInvLost(s, r, commit);
    }
  }

  lemma {:induction false} HoldInvAct(s: State, r: nat, action: Action)
    requires Enabled(s, Act(r, action)) && HoldInv(s, s.requests[r].key) && !action.Claim?
    ensures HoldInv(DoAct(s, r, action), s.requests[r].key)
  {
    var q := s.requests[r];
    HoldStep(s, q, action);
    OtherRowsKept(s, q, action);
  }

  // A request of another key leaves the key alone.
  lemma {:induction false} HoldInvOther(s: State, r: nat, action: Action, k: Key)
    requires Enabled(s, Act(r, action)) && HoldInv(s, k) && s.requests[r].key != k
    ensures HoldInv(DoAct(s, r, action), k)
  {
    OtherRowsKept(s, s.requests[r], action);
  }

  // "Sent" turns a held row SENT; a harmless "not sent" frees a row nobody holds.
  lemma {:induction false} HoldInvVerdict(s: State, v: nat, commit: Commit, k: Key, care: Care)
    requires HoldInv(s, k) && v in s.resolutions && HarmlessStep(s, CommitResolution(v, commit), k, care)
    ensures HoldInv(DoResolve(s, v, commit), k)
  {
    var s' := DoResolve(s, v, commit);
    forall o | o in s'.requests && s'.requests[o].key == k
      ensures HoldsRow(s'.rows, s'.requests[o])
    {
      assert HoldsRow(s.rows, s.requests[o]);
    }
  }

  lemma {:induction false} HoldInvStep(s: State, l: Label, k: Key, care: Care)
    requires LockInv(s) && HoldInv(s, k) && Enabled(s, l) && HarmlessStep(s, l, k, care)
    ensures HoldInv(Do(s, l), k)
  {
    if l.Act? {
      if s.requests[l.r].key != k {
        HoldInvOther(s, l.r, l.action, k);
      } else if l.action.Claim? {
        HoldInvClaim(s, l.r, l.action.commit);
      } else {
        HoldInvAct(s, l.r, l.action);
      }
    } else if l.CommitResolution? {
      HoldInvVerdict(s, l.v, l.commit, k, care);
    }
  }

  // ---- What was accepted ----------------------------------------------------------

  predicate AcceptedBy(accepted: multiset<Key>, q: Request) {
    && (q.phase.Mailing? || q.phase.Refused? ==> accepted[q.key] == 0)
    && (q.phase.Accepted? || q.phase.Unsettled? || q.phase.Recording? || q.phase == Done(Success) ==>
          accepted[q.key] == 1)
  }

  // A key is accepted once, and then never FAILED, so never claimed again.
  predicate Mailed(s: State, k: Key) {
    s.accepted[k] <= 1 && (k in s.accepted ==> Matches(s.rows, k, {SENDING, SENT}))
  }

  ghost predicate MailInv(s: State, k: Key) {
    Mailed(s, k) && forall r :: r in s.requests && s.requests[r].key == k ==> AcceptedBy(s.accepted, s.requests[r])
  }

  lemma {:induction false} MailStep(s: State, r: nat, action: Action)
    requires Enabled(s, Act(r, action))
    requires var q := s.requests[r]; HoldsRow(s.rows, q) && AcceptedBy(s.accepted, q) && Mailed(s, q.key)
    ensures Mailed(DoAct(s, r, action), s.requests[r].key)
    ensures AcceptedBy(NextAccepted(s, s.requests[r], action), DoAct(s, r, action).requests[r])
  {
  }

  lemma {:induction false} MailInvAct(s: State, r: nat, action: Action)
    requires Enabled(s, Act(r, action)) && HoldInv(s, s.requests[r].key) && MailInv(s, s.requests[r].key)
    ensures MailInv(DoAct(s, r, action), s.requests[r].key)
  {
    var q, s' := s.requests[r], DoAct(s, r, action);
    MailStep(s, r, action);
    forall o | o in s'.requests && s'.requests[o].key == q.key && o != r
      ensures AcceptedBy(s'.accepted, s'.requests[o])
    {
      assert AcceptedBy(s.accepted, s.requests[o]) && AcceptedBy(s.accepted, q);
    }
  }

  lemma {:induction false} MailInvOther(s: State, r: nat, action: Action, k: Key)
    requires Enabled(s, Act(r, action)) && MailInv(s, k) && s.requests[r].key != k
    ensures MailInv(DoAct(s, r, action), k)
  {
    OtherRowsKept(s, s.requests[r], action);
  }

  // A harmless "not sent" fails no accepted key.
  lemma {:induction false} MailInvVerdict(s: State, v: nat, commit: Commit, k: Key)
    requires MailInv(s, k) && v in s.resolutions && HarmlessStep(s, CommitResolution(v, commit), k, OneAcceptance)
    ensures MailInv(DoResolve(s, v, commit), k)
  {
  }

  lemma {:induction false} MailInvStep(s: State, l: Label, k: Key)
    requires HoldInv(s, k) && MailInv(s, k) && Enabled(s, l) && HarmlessStep(s, l, k, OneAcceptance)
    ensures MailInv(Do(s, l), k)
  {
    if l.Act? {
      if s.requests[l.r].key == k { MailInvAct(s, l.r, l.action); } else { MailInvOther(s, l.r, l.action, k); }
    } else if l.CommitResolution? {
      MailInvVerdict(s, l.v, l.commit, k);
    }
  }

  // ---- The claim of a request that waits for the provider ----------------------------

  // The row is still as the request's claim left it.
  predicate Stands(t: Table, q: Request)
    requires q.Owns()
  {
    q.key in t && t[q.key] == Row(q.thread, SENDING, q.phase.claimedAt)
  }

  ghost predicate StandInv(s: State, k: Key) {
    forall r :: r in s.requests && s.requests[r].key == k && s.requests[r].phase.Mailing? ==>
      Stands(s.rows, s.requests[r])
  }

  // A step writes no row that another live request of the key holds.
  lemma {:induction false} WritesOwnRow(s: State, r: nat, action: Action, o: nat)
    requires Enabled(s, Act(r, action)) && LockInv(s) && HoldInv(s, s.requests[r].key)
    requires o in s.requests && o != r && Active(s.requests[o]) && s.requests[o].key == s.requests[r].key
    ensures NextRows(s, s.requests[r], action) == s.rows
  {
    if action.Claim? {
      if NextRows(s, s.requests[r], action) != s.rows {
        ClaimTakesFreeKey(s, r, action.commit);
      }
    } else {
      OtherRowsKept(s, s.requests[r], action);
    }
  }

  lemma {:induction false} StandInvAct(s: State, r: nat, action: Action)
    requires Enabled(s, Act(r, action)) && LockInv(s) && HoldInv(s, s.requests[r].key) && StandInv(s, s.requests[r].key)
    ensures StandInv(DoAct(s, r, action), s.requests[r].key)
  {
    var q, s' := s.requests[r], DoAct(s, r, action);
    forall o | o in s'.requests && s'.requests[o].key == q.key && s'.requests[o].phase.Mailing?
      ensures Stands(s'.rows, s'.requests[o])
    {
      if o != r {
        WritesOwnRow(s, r, action, o);
      } else {
        assert LockOk(s, r);
      }
    }
  }

  lemma {:induction false} StandInvOther(s: State, r: nat, action: Action, k: Key)
    requires Enabled(s, Act(r, action)) && StandInv(s, k) && s.requests[r].key != k
    ensures StandInv(DoAct(s, r, action), k)
  {
    OtherRowsKept(s, s.requests[r], action);
  }

  lemma {:induction false} StandInvVerdict(s: State, v: nat, commit: Commit, k: Key)
    requires StandInv(s, k) && v in s.resolutions && HarmlessStep(s, CommitResolution(v, commit), k, StandingClaims)
    ensures StandInv(DoResolve(s, v, commit), k)
  {
    var s' := DoResolve(s, v, commit);
    forall r | r in s'.requests && s'.requests[r].key == k && s'.requests[r].phase.Mailing?
      ensures Stands(s'.rows, s'.requests[r])
    {
      assert Stands(s.rows, s.requests[r]) && Awaited(s, k) && s.requests[r].Owns();
    }
  }

  lemma {:induction false} StandInvStep(s: State, l: Label, k: Key)
    requires LockInv(s) && HoldInv(s, k) && StandInv(s, k) && Enabled(s, l) && HarmlessStep(s, l, k, StandingClaims)
    ensures StandInv(Do(s, l), k)
  {
    if l.Act? {
      if s.requests[l.r].key == k { StandInvAct(s, l.r, l.action); } else { StandInvOther(s, l.r, l.action, k); }
    } else if l.CommitResolution? {
      StandInvVerdict(s, l.v, l.commit, k);
    }
  }

  // ---- What is recorded -------------------------------------------------------------

  predicate RecordedBy(s: State, q: Request) {
    && (q.phase.Mailing? || q.phase.Accepted? ==> Matches(s.rows, q.key, {SENDING}))
    && (q.phase.Recording? ==> s.ledger[q.key] == 0 && q.key !in s.settled)
  }

  predicate Recorded(s: State, k: Key) {
    && s.ledger[k] <= 1
    && (k in s.ledger ==> Matches(s.rows, k, {SENT}))
    && (k in s.settled ==> k in s.ledger)
  }

  ghost predicate LedgerInv(s: State, k: Key) {
    Recorded(s, k) && forall r :: r in s.requests && s.requests[r].key == k ==> RecordedBy(s, s.requests[r])
  }

  lemma {:induction false} LedgerStep(s: State, r: nat, action: Action)
    requires Enabled(s, Act(r, action))
    requires var q := s.requests[r]; HoldsRow(s.rows, q) && RecordedBy(s, q) && Recorded(s, q.key)
    ensures Recorded(DoAct(s, r, action), s.requests[r].key)
    ensures RecordedBy(DoAct(s, r, action), DoAct(s, r, action).requests[r])
    ensures NextLedger(s, s.requests[r], action) != s.ledger ==> Active(s.requests[r])
  {
  }

  lemma {:induction false} LedgerInvAct(s: State, r: nat, action: Action)
    requires Enabled(s, Act(r, action)) && LockInv(s)
    requires HoldInv(s, s.requests[r].key) && LedgerInv(s, s.requests[r].key)
    ensures LedgerInv(DoAct(s, r, action), s.requests[r].key)
  {
    var q, s' := s.requests[r], DoAct(s, r, action);
    LedgerStep(s, r, action);
    forall o | o in s'.requests && s'.requests[o].key == q.key && o != r
      ensures RecordedBy(s', s'.requests[o])
    {
      assert RecordedBy(s, s.requests[o]);
      if Active(s.requests[o]) {
        WritesOwnRow(s, r, action, o);
      }
    }
  }

  lemma {:induction false} LedgerInvOther(s: State, r: nat, action: Action, k: Key)
    requires Enabled(s, Act(r, action)) && LedgerInv(s, k) && s.requests[r].key != k
    ensures LedgerInv(DoAct(s, r, action), k)
  {
    OtherRowsKept(s, s.requests[r], action);
  }

  lemma {:induction false} LedgerInvVerdict(s: State, v: nat, commit: Commit, k: Key)
    requires HoldInv(s, k) && LedgerInv(s, k) && v in s.resolutions
    requires HarmlessStep(s, CommitResolution(v, commit), k, OneEvent)
    ensures LedgerInv(DoResolve(s, v, commit), k)
  {
    var s' := DoResolve(s, v, commit);
    forall o | o in s'.requests && s'.requests[o].key == k
      ensures RecordedBy(s', s'.requests[o])
    {
      assert RecordedBy(s, s.requests[o]);
    }
  }

  lemma {:induction false} LedgerInvStep(s: State, l: Label, k: Key)
    requires LockInv(s) && HoldInv(s, k) && LedgerInv(s, k) && Enabled(s, l) && HarmlessStep(s, l, k, OneEvent)
    ensures LedgerInv(Do(s, l), k)
  {
    if l.Act? {
      if s.requests[l.r].key == k { LedgerInvAct(s, l.r, l.action); } else { LedgerInvOther(s, l.r, l.action, k); }
    } else if l.CommitResolution? {
      LedgerInvVerdict(s, l.v, l.commit, k);
    }
  }

  // ---- Theorems over whole runs ---------------------------------------------------

  lemma {:induction false} RunKeepsLocks(run: Run<Label>)
    requires Exec(run).Some?
    ensures LockInv(Exec(run).value) && OneOpen(Exec(run).value.rows)
  {
    if run.Then? {
      RunKeepsLocks(run.before);
      LockInvStep(Exec(run.before).value, run.last);
    }
  }

  lemma {:induction false} RunKeepsHold(run: Run<Label>, k: Key, care: Care)
    requires Harmless(run, k, care)
    ensures HoldInv(Exec(run).value, k)
  {
    if run.Then? {
      RunKeepsHold(run.before, k, care);
      RunKeepsLocks(run.before);
      HoldInvStep(Exec(run.before).value, run.last, k, care);
    }
  }

  lemma {:induction false} RunKeepsMail(run: Run<Label>, k: Key)
    requires Harmless(run, k, OneAcceptance)
    ensures MailInv(Exec(run).value, k)
  {
    if run.Then? {
      RunKeepsMail(run.before, k);
      RunKeepsHold(run.before, k, OneAcceptance);
      MailInvStep(Exec(run.before).value, run.last, k);
    }
  }

  lemma {:induction false} RunKeepsStanding(run: Run<Label>, k: Key)
    requires Harmless(run, k, StandingClaims)
    ensures StandInv(Exec(run).value, k)
  {
    if run.Then? {
      RunKeepsStanding(run.before, k);
      RunKeepsHold(run.before, k, StandingClaims);
      RunKeepsLocks(run.before);
      StandInvStep(Exec(run.before).value, run.last, k);
    }
  }

  lemma {:induction false} RunKeepsLedger(run: Run<Label>, k: Key)
    requires Harmless(run, k, OneEvent)
    ensures LedgerInv(Exec(run).value, k)
  {
    if run.Then? {
      RunKeepsLedger(run.before, k);
      RunKeepsHold(run.before, k, OneEvent);
      RunKeepsLocks(run.before);
      LedgerInvStep(Exec(run.before).value, run.last, k);
    }
  }

  // At most one SENDING row per thread, whatever keys are used and whatever
  // crashes: needs no assumption on the run.
  lemma {:induction false} OneOpenReplyPerThread(run: Run<Label>, j: Key, k: Key)
    requires Exec(run).Some?
    requires var t := Exec(run).value.rows;
             Matches(t, j, {SENDING}) && Matches(t, k, {SENDING}) && t[j].thread == t[k].thread
    ensures j == k
  {
    RunKeepsLocks(run);
  }

  // The provider accepts at most one message of an idempotency key, and a key that was
  // accepted is not FAILED, so it can never be claimed again: in every run whose "not
  // sent" verdicts on that key are true and free no live claim, however late a request
  // is, however many resolutions overlap and whatever is done to other keys.
  lemma {:induction false} AtMostOneAcceptance(run: Run<Label>, k: Key)
    requires Harmless(run, k, OneAcceptance)
    ensures Exec(run).value.accepted[k] <= 1
    ensures k in Exec(run).value.accepted ==> Matches(Exec(run).value.rows, k, {SENDING, SENT})
  {
    RunKeepsMail(run, k);
  }

  predicate Sent(q: Request) {
    q.phase.Accepted? || q.phase.Unsettled? || q.phase.Recording? || q.phase == Done(Success)
  }

  // A request answered with success by sending had its message accepted: in every run.
  lemma {:induction false} SuccessMeansAccepted(run: Run<Label>, r: nat)
    requires Exec(run).Some? && r in Exec(run).value.requests && Sent(Exec(run).value.requests[r])
    ensures Exec(run).value.requests[r].key in Exec(run).value.accepted
  {
    var s := Exec(run.before).value;
    if run.last.Act? {
      AcceptedStay(s, run.last.r, run.last.action, r);
    }
    if r in s.requests && Sent(s.requests[r]) {
      SuccessMeansAccepted(run.before, r);
    }
  }

  lemma {:induction false} AcceptedStay(s: State, a: nat, action: Action, r: nat)
    requires Enabled(s, Act(a, action))
    ensures forall k :: k in s.accepted ==> k in DoAct(s, a, action).accepted
    ensures var q := DoAct(s, a, action).requests[a];
            Sent(q) ==> Sent(s.requests[a]) || q.key in DoAct(s, a, action).accepted
  {
  }

  // When a message is accepted, its row stands as its claim left it and is the thread's
  // one open row; this needs only harmless verdicts on that key. A reply accepted earlier
  // on the thread is then recorded as SENT, if the "not sent" verdicts on it were true and
  // freed no live claim: an accepted but unrecorded reply blocks its thread.
  lemma {:induction false} AcceptanceIsExclusive(run: Run<Label>, r: nat, k: Key)
    requires Exec(run).Some? && Enabled(Exec(run).value, Act(r, Accept))
    requires Harmless(run, Exec(run).value.requests[r].key, StandingClaims)
    ensures var s := Exec(run).value; var q := s.requests[r];
            && Stands(s.rows, q)
            && (Matches(s.rows, k, {SENDING}) && s.rows[k].thread == q.thread ==> k == q.key)
            && (Harmless(run, k, OneAcceptance) && k in s.accepted && k in s.rows && s.rows[k].thread == q.thread ==>
                  s.rows[k].status == SENT)
  {
    var s := Exec(run).value;
    RunKeepsStanding(run, s.requests[r].key);
    RunKeepsLocks(run);
    if Harmless(run, k, OneAcceptance) {
      RunKeepsMail(run, k);
    }
  }

  // One SENT contact event per reply at most, and exactly one once the row became
  // SENT through the finalise transaction or a resolution.
  lemma {:induction false} OneContactEventPerReply(run: Run<Label>, k: Key)
    requires Harmless(run, k, OneEvent)
    ensures var s := Exec(run).value;
            && s.ledger[k] <= 1
            && (k in s.ledger ==> Matches(s.rows, k, {SENT}))
            && (k in s.settled ==> s.ledger[k] == 1)
  {
    RunKeepsLedger(run, k);
  }

  lemma SentStaysSent(s: State, l: Label, k: Key)
    requires LockInv(s) && Enabled(s, l) && Matches(s.rows, k, {SENT})
    ensures Matches(Do(s, l).rows, k, {SENT})
  {
    if l.Act? && !l.action.Claim? && k == s.requests[l.r].key {
    } else if l.Act? && !l.action.Claim? {
      OtherRowsKept(s, s.requests[l.r], l.action);
    }
  }

  // SENT is absorbing along every run, whatever is done to it.
  lemma {:induction false} SentIsAbsorbing(run: Run<Label>, longer: Run<Label>, k: Key)
    requires Prefix(run, longer) && Exec(longer).Some?
    requires Exec(run).Some? && Matches(Exec(run).value.rows, k, {SENT})
    ensures Matches(Exec(longer).value.rows, k, {SENT})
  {
    if run != longer {
      SentIsAbsorbing(run, longer.before, k);
      RunKeepsLocks(longer.before);
      SentStaysSent(Exec(longer.before).value, longer.last, k);
    }
  }

  // The lock and the open-send check, one after the other: refused, or still locked.
  lemma LockAndCheck(s: State, r: nat)
    requires Enabled(s, Act(r, Lock))
    ensures var q, s2 := s.requests[r], DoAct(DoAct(s, r, Lock), r, CheckOpen);
            && s2.rows == s.rows && s2.now == s.now
            && s2.requests[r] ==
                 q.(phase := if Open(s.rows, q.thread) then Done(Rejected) else Checked(q.phase.priorFailed))
            && s2.locks == if Open(s.rows, q.thread) then s.locks else s.locks[q.thread := r]
  {
    var q := s.requests[r];
    assert s.locks[q.thread := r] - {q.thread} == s.locks;
  }

  // The three statements of the claim transaction, with no step of another request
  // between them, do what the transaction's method does.
  lemma TransactionIsClaim(s: State, r: nat)
    requires Enabled(s, Act(r, Lock))
    ensures var q, failed := s.requests[r], s.requests[r].phase.priorFailed;
            var s2 := DoAct(DoAct(s, r, Lock), r, CheckOpen);
            var s3 := if Open(s.rows, q.thread) then s2 else DoAct(s2, r, Claim(Applied));
            && s3.rows == (if Grants(s.rows, q.key, q.thread, failed)
                           then Claimed(s.rows, q.key, q.thread, failed, s.now) else s.rows)
            && (s3.requests[r].phase ==
                  if Grants(s.rows, q.key, q.thread, failed) then Mailing(s.now) else Done(Rejected))
            && s3.locks == s.locks
  {
    var q := s.requests[r];
    LockAndCheck(s, r);
    assert s.locks[q.thread := r] - {q.thread} == s.locks;
  }
}
