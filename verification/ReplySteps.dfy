/** The steps of one request from its arrival to its claim, whatever else is going on. */
module ReplySteps {
  import opened Wrappers
  import opened ReplyRows
  import opened ReplyProtocol

  function With(s: State, r: nat, k: Key, t: Thread, phase: Phase): State {
    s.(requests := s.requests[r := Request(k, t, phase)])
  }

  // The thread has no open reply, and the key has no row or a FAILED one of the thread.
  predicate Claimable(s: State, k: Key, t: Thread) {
    !Open(s.rows, t) && (k in s.rows ==> s.rows[k].status == FAILED && s.rows[k].thread == t)
  }

  lemma {:induction false} LookUpStep(s: State, r: nat, k: Key, t: Thread)
    requires Claimable(s, k, t)
    ensures var s1 := With(s, r, k, t, Looking);
            Enabled(s1, Act(r, LookUp)) && DoAct(s1, r, LookUp) == With(s, r, k, t, Ready(k in s.rows))
  {
  }

  lemma {:induction false} LockStep(s: State, r: nat, k: Key, t: Thread, failed: bool)
    requires t !in s.locks
    ensures var s2 := With(s, r, k, t, Ready(failed));
            && Enabled(s2, Act(r, Lock))
            && DoAct(s2, r, Lock) == With(s, r, k, t, Locked(failed)).(locks := s.locks[t := r])
  {
  }

  lemma {:induction false} CheckStep(s: State, r: nat, k: Key, t: Thread, failed: bool)
    requires !Open(s.rows, t)
    ensures var s3 := With(s, r, k, t, Locked(failed)).(locks := s.locks[t := r]);
            && Enabled(s3, Act(r, CheckOpen))
            && DoAct(s3, r, CheckOpen) == With(s, r, k, t, Checked(failed)).(locks := s.locks[t := r])
  {
  }

  // The state once the claim's transaction has committed.
  function Taken(s: State, r: nat, k: Key, t: Thread, commit: Commit): State {
    With(s, r, k, t, if commit.Applied? then Mailing(s.now) else Done(Rejected))
      .(rows := s.rows[k := Row(t, SENDING, s.now)])
  }

  lemma {:induction false} ClaimWrites(s: State, r: nat, k: Key, t: Thread, commit: Commit)
    requires Claimable(s, k, t) && t !in s.locks && !commit.RolledBack?
    ensures var s4 := With(s, r, k, t, Checked(k in s.rows)).(locks := s.locks[t := r]);
            && NextRows(s4, s4.requests[r], Claim(commit)) == s.rows[k := Row(t, SENDING, s.now)]
            && NextPhase(s4, s4.requests[r], Claim(commit)) ==
                 if commit.Applied? then Mailing(s.now) else Done(Rejected)
  {
  }

  // The end of the transaction gives the lock back.
  lemma {:induction false} ClaimUnlocks(s: State, r: nat, k: Key, t: Thread, commit: Commit)
    requires t !in s.locks
    ensures var s4 := With(s, r, k, t, Checked(k in s.rows)).(locks := s.locks[t := r]);
            NextLocks(s4, r, s4.requests[r], Claim(commit)) == s.locks
  {
    assert s.locks[t := r] - {t} == s.locks;
  }

  lemma {:induction false} ClaimStep(s: State, r: nat, k: Key, t: Thread, commit: Commit)
    requires Claimable(s, k, t) && t !in s.locks && !commit.RolledBack?
    ensures var s4 := With(s, r, k, t, Checked(k in s.rows)).(locks := s.locks[t := r]);
            Enabled(s4, Act(r, Claim(commit))) && DoAct(s4, r, Claim(commit)) == Taken(s, r, k, t, commit)
  {
    ClaimWrites(s, r, k, t, commit);
    ClaimUnlocks(s, r, k, t, commit);
    assert s.requests[r := Request(k, t, Checked(k in s.rows))][r := Taken(s, r, k, t, commit).requests[r]]
        == Taken(s, r, k, t, commit).requests;
  }
}
