/**
 What a person's verdict on an orphaned reply can do, over every continuation: when
 "not sent" lets the provider accept a second message, when a verdict lets a message be
 accepted without a standing claim, when "sent" spoils the contact ledger, and that
 verdicts are harmless when requests are timely, answers true and resolutions single.
 */
module ReplyVerdicts {
  import opened Wrappers
  import opened ReplyRows
  import opened ReplyProtocol
  import opened ReplySafety
  import opened ReplySteps

  lemma {:induction false} HarmlessChains(a: Run<Label>, b: Run<Label>, c: Run<Label>, k: Key, care: Care)
    requires HarmlessAfter(a, b, k, care) && HarmlessAfter(b, c, k, care)
    ensures HarmlessAfter(a, c, k, care)
  {
    if b != c {
      HarmlessChains(a, b, c.before, k, care);
    }
  }

  // ---- Careful runs are harmless ---------------------------------------------------

  // A row under resolution is SENDING and nobody's claim.
  ghost predicate Orphaned(s: State) {
    && (forall v :: v in s.resolutions ==> Unclaimed(s, s.resolutions[v].key))
    && (forall v, w :: v in s.resolutions && w in s.resolutions && v != w ==>
          s.resolutions[v].key != s.resolutions[w].key)
  }

  predicate Unclaimed(s: State, k: Key) {
    Matches(s.rows, k, {SENDING}) && forall r :: r in s.requests && Active(s.requests[r]) ==> s.requests[r].key != k
  }

  lemma {:induction false} UnclaimedAct(s: State, r: nat, action: Action, k: Key)
    requires Enabled(s, Act(r, action)) && LockInv(s) && HoldInv(s, s.requests[r].key) && Unclaimed(s, k)
    ensures Unclaimed(DoAct(s, r, action), k)
  {
    var q := s.requests[r];
    OtherRowsKept(s, q, action);
    if action.Claim? {
      if NextRows(s, q, action) != s.rows {
        ClaimTakesFreeKey(s, r, action.commit);
      }
    } else {
      HoldStep(s, q, action);
    }
  }

  // Past the window no live request still owns the row: its own request ended.
  lemma {:induction false} PastWindowIsUnclaimed(s: State, k: Key)
    requires HoldInv(s, k) && InTime(s, k) && Matches(s.rows, k, {SENDING}) && !InFlight(s.rows[k], s.now)
    ensures Unclaimed(s, k)
  {
    forall r | r in s.requests && Active(s.requests[r])
      ensures s.requests[r].key != k
    {
      assert s.requests[r].key == k ==> HoldsRow(s.rows, s.requests[r]);
    }
  }

  lemma {:induction false} VerdictLeavesOthers(s: State, v: nat, commit: Commit, k: Key)
    requires v in s.resolutions && s.resolutions[v].key != k && Unclaimed(s, k)
    ensures Unclaimed(DoResolve(s, v, commit), k)
  {
  }

  lemma {:induction false} OrphanedStep(s: State, l: Label)
    requires LockInv(s) && Orphaned(s) && Enabled(s, l) && Assumed(s, l, true)
    requires forall k :: HoldInv(s, k)
    ensures Orphaned(Do(s, l))
  {
    var s' := Do(s, l);
    forall v | v in s'.resolutions ensures Unclaimed(s', s'.resolutions[v].key) {
      if l.OpenResolution? && v == l.v {
        assert InTime(s, l.key);
        PastWindowIsUnclaimed(s, l.key);
      } else if l.Act? {
        UnclaimedAct(s, l.r, l.action, s.resolutions[v].key);
      } else if l.CommitResolution? {
        VerdictLeavesOthers(s, l.v, l.commit, s.resolutions[v].key);
      } else {
        assert Unclaimed(s, s.resolutions[v].key);
      }
    }
  }

  // Requests within the window, true answers and no overlapping resolutions make
  // every verdict harmless, so the safety theorems hold of such runs.
  lemma {:induction false} CarefulIsHarmless(run: Run<Label>)
    requires Careful(run, true)
    ensures forall k, care :: Harmless(run, k, care)
    ensures Orphaned(Exec(run).value)
  {
    if run.Then? {
      CarefulIsHarmless(run.before);
      RunKeepsLocks(run.before);
      var s := Exec(run.before).value;
      forall k ensures HoldInv(s, k) {
        RunKeepsHold(run.before, k, OneEvent);
      }
      OrphanedStep(s, run.last);
      forall k, care ensures Harmless(run, k, care) {
        assert Harmless(run.before, k, care);
        assert Decides(s, run.last, k) ==> Unclaimed(s, k);
      }
    }
  }

  lemma {:induction false} CarefulRunsAreSafe(run: Run<Label>, k: Key)
    requires Careful(run, true)
    ensures Exec(run).value.accepted[k] <= 1 && Exec(run).value.ledger[k] <= 1
    ensures k in Exec(run).value.settled ==> Exec(run).value.ledger[k] == 1
  {
    CarefulIsHarmless(run);
    AtMostOneAcceptance(run, k);
    OneContactEventPerReply(run, k);
  }

  // ---- The guard the resolve route does not have ---------------------------------------

  // The verdict finds the attempt time its resolution read, or no SENDING row.
  predicate SameAttempt(s: State, v: nat)
    requires v in s.resolutions
  {
    var k := s.resolutions[v].key;
    Matches(s.rows, k, {SENDING}) ==> s.rows[k].attemptedAt == s.resolutions[v].attemptedAt
  }

  // A run whose requests for the key end in time, and in which each committed "not sent"
  // on the key is true and would have passed a test of the attempt time.
  ghost predicate Guarded(run: Run<Label>, k: Key) {
    Exec(run).Some? && (run.Then? ==>
      var s, l := Exec(run.before).value, run.last;
      && Guarded(run.before, k) && InTime(s, k)
      && (Decides(s, l, k) && !s.resolutions[l.v].sent ==> s.accepted[k] == 0 && SameAttempt(s, l.v)))
  }

  // Whoever owns the key claimed it after each resolution of it read the row.
  ghost predicate ReadBefore(s: State, k: Key) {
    && (forall v :: v in s.resolutions ==> s.resolutions[v].attemptedAt < s.now)
    && (forall v, r :: v in s.resolutions && s.resolutions[v].key == k
                       && r in s.requests && s.requests[r].key == k && s.requests[r].Owns() ==>
          s.resolutions[v].attemptedAt < s.requests[r].phase.claimedAt)
  }

  // A claim starts now; every other step keeps the time of the claim.
  lemma {:induction false} ClaimTime(s: State, q: Request, action: Action)
    requires CanAct(q.phase, action)
    ensures var q' := q.(phase := NextPhase(s, q, action));
            q'.Owns() ==> q'.phase.claimedAt == if q.Owns() then q.phase.claimedAt else s.now
  {
  }

  lemma {:induction false} ReadBeforeAct(s: State, r: nat, action: Action, k: Key)
    requires ReadBefore(s, k) && Enabled(s, Act(r, action))
    ensures ReadBefore(DoAct(s, r, action), k)
  {
    ClaimTime(s, s.requests[r], action);
  }

  lemma {:induction false} ReadBeforeStep(s: State, l: Label, k: Key)
    requires HoldInv(s, k) && ReadBefore(s, k) && Enabled(s, l) && InTime(s, k)
    ensures ReadBefore(Do(s, l), k)
  {
    if l.OpenResolution? && l.key == k {
      PastWindowIsUnclaimed(s, k);
    } else if l.Act? {
      ReadBeforeAct(s, l.r, l.action, k);
    }
  }

  // A SENDING row that still has the attempt time read is nobody's live claim.
  lemma {:induction false} SameAttemptIsUnowned(s: State, v: nat)
    requires v in s.resolutions && SameAttempt(s, v) && Matches(s.rows, s.resolutions[v].key, {SENDING})
    requires HoldInv(s, s.resolutions[v].key) && ReadBefore(s, s.resolutions[v].key)
    ensures !Owned(s, s.resolutions[v].key)
  {
    forall r | r in s.requests && s.requests[r].key == s.resolutions[v].key
      ensures !s.requests[r].Owns()
    {
      assert HoldsRow(s.rows, s.requests[r]);
    }
  }

  // Had the update also tested the attempt time that was read, true "not sent" answers
  // would be harmless however many resolutions overlap.
  lemma {:induction false} AttemptGuardSuffices(run: Run<Label>, k: Key)
    requires Guarded(run, k)
    ensures Harmless(run, k, OneAcceptance) && ReadBefore(Exec(run).value, k)
    ensures Exec(run).value.accepted[k] <= 1
  {
    if run.Then? {
      AttemptGuardSuffices(run.before, k);
      RunKeepsHold(run.before, k, OneAcceptance);
      var s, l := Exec(run.before).value, run.last;
      ReadBeforeStep(s, l, k);
      if Decides(s, l, k) && !s.resolutions[l.v].sent && Matches(s.rows, k, {SENDING}) {
        SameAttemptIsUnowned(s, l.v);
      }
    }
    AtMostOneAcceptance(run, k);
  }

  // ---- Building continuations ------------------------------------------------------------

  // Row locks are held by requests in their transaction, and a key belongs to the
  // workspace of its thread.
  ghost predicate Fits(s: State) {
    && (forall t :: t in s.locks ==> Holds(s, t))
    && (forall r :: r in s.requests ==> s.requests[r].key.workspace == s.requests[r].thread.workspace)
    && (forall k :: k in s.rows ==> k.workspace == s.rows[k].thread.workspace)
  }

  predicate Holds(s: State, t: Thread)
    requires t in s.locks
  {
    s.locks[t] in s.requests && s.requests[s.locks[t]].InTransaction() && s.requests[s.locks[t]].thread == t
  }

  lemma {:induction false} FitsAct(s: State, r: nat, action: Action)
    requires Fits(s) && Enabled(s, Act(r, action))
    ensures Fits(DoAct(s, r, action))
  {
    var s' := DoAct(s, r, action);
    OtherRowsKept(s, s.requests[r], action);
    forall t | t in s'.locks ensures Holds(s', t) {
      assert t in s.locks ==> Holds(s, t);
    }
  }

  lemma {:induction false} RunKeepsFits(run: Run<Label>)
    requires Exec(run).Some?
    ensures Fits(Exec(run).value)
  {
    if run.Then? {
      RunKeepsFits(run.before);
      var s, l := Exec(run.before).value, run.last;
      if l.Act? {
        FitsAct(s, l.r, l.action);
      } else {
        forall t | t in Do(s, l).locks ensures Holds(Do(s, l), t) {
          assert Holds(s, t);
        }
      }
    }
  }

  // A run `run` that ends in `s`, harmless since `from`.
  ghost predicate At(from: Run<Label>, run: Run<Label>, s: State, k: Key, care: Care) {
    HarmlessAfter(from, run, k, care) && Exec(run) == Some(s)
  }

  lemma {:induction false} Next(from: Run<Label>, run: Run<Label>, s: State, r: nat, action: Action, k: Key, care: Care)
    returns (longer: Run<Label>, s': State)
    requires At(from, run, s, k, care) && Enabled(s, Act(r, action))
    ensures At(from, longer, s', k, care) && s' == DoAct(s, r, action)
  {
    longer, s' := Then(run, Act(r, action)), DoAct(s, r, action);
  }

  // Whoever holds the lock of a thread may crash.
  lemma {:induction false} Unlock(from: Run<Label>, run: Run<Label>, s: State, t: Thread, k: Key, care: Care)
    returns (longer: Run<Label>, s': State)
    requires At(from, run, s, k, care)
    ensures At(from, longer, s', k, care) && t !in s'.locks && s'.requests.Keys == s.requests.Keys
    ensures s' == s.(locks := s'.locks, requests := s'.requests)
    ensures forall o :: o in s.requests && s.requests[o].Owns() ==> s'.requests[o] == s.requests[o]
  {
    longer, s' := run, s;
    if t in s.locks {
      RunKeepsFits(run);
      assert Holds(s, t);
      longer, s' := Next(from, run, s, s.locks[t], Crash, k, care);
    }
  }

  // A FAILED row on a thread with no open reply.
  predicate Free(s: State, k: Key) {
    Matches(s.rows, k, {FAILED}) && !Open(s.rows, s.rows[k].thread)
  }

  lemma {:induction false} Arrival(from: Run<Label>, run: Run<Label>, s: State, a: nat, t: Thread, k: Key, care: Care)
    returns (longer: Run<Label>)
    requires At(from, run, s, k, care) && a !in s.requests && k.workspace == t.workspace
    ensures At(from, longer, With(s, a, k, t, Looking), k, care)
  {
    longer := Then(run, Arrive(a, k, t));
  }

  // A free key can be claimed by a new request, whoever else is at work.
  lemma {:induction false} ClaimAgain(from: Run<Label>, run: Run<Label>, s: State, k: Key, care: Care)
    returns (longer: Run<Label>, s': State, a: nat)
    requires At(from, run, s, k, care) && Free(s, k)
    ensures At(from, longer, s', k, care) && s'.accepted == s.accepted
    ensures a !in s.requests && a in s'.requests && s'.requests[a].key == k && s'.requests[a].phase.Mailing?
    ensures Matches(s'.rows, k, {SENDING})
    ensures forall o :: o in s.requests && s.requests[o].Owns() ==> o in s'.requests && s'.requests[o] == s.requests[o]
  {
    RunKeepsFits(run);
    var t := s.rows[k].thread;
    var s0: State, s1: State;
    longer, s0 := Unlock(from, run, s, t, k, care);
    a := Unused(s0.requests.Keys);
    LookUpStep(s0, a, k, t);
    LockStep(s0, a, k, t, true);
    CheckStep(s0, a, k, t, true);
    ClaimStep(s0, a, k, t, Applied);
    longer := Arrival(from, longer, s0, a, t, k, care);
    longer, s1 := Next(from, longer, With(s0, a, k, t, Looking), a, LookUp, k, care);
    longer, s1 := Next(from, longer, s1, a, Lock, k, care);
    longer, s1 := Next(from, longer, s1, a, CheckOpen, k, care);
    longer, s' := Next(from, longer, s1, a, Claim(Applied), k, care);
  }

  // Making a SENDING row FAILED frees its key: it was the thread's one open row.
  lemma {:induction false} FailingFrees(s: State, k: Key)
    requires OneOpen(s.rows) && Matches(s.rows, k, {SENDING})
    ensures var t := Restatus(s.rows, k, {SENDING}, FAILED); Matches(t, k, {FAILED}) && !Open(t, t[k].thread)
  {
  }

  // ---- Two acceptances ---------------------------------------------------------------------

  ghost predicate CanAcceptTwice(run: Run<Label>, k: Key) {
    exists longer :: HarmlessAfter(run, longer, k, OneAcceptance) && Exec(longer).value.accepted[k] > 1
  }

  // Two requests with the key wait for the provider.
  lemma {:induction false} BothAccepted(from: Run<Label>, run: Run<Label>, s: State, k: Key, a: nat, b: nat)
    requires At(from, run, s, k, OneAcceptance) && a != b && a in s.requests && b in s.requests
    requires s.requests[a].key == k && s.requests[a].phase.Mailing?
    requires s.requests[b].key == k && s.requests[b].phase.Mailing?
    ensures CanAcceptTwice(from, k)
  {
    var longer, s1 := Next(from, run, s, a, Accept, k, OneAcceptance);
    longer, s1 := Next(from, longer, s1, b, Accept, k, OneAcceptance);
  }

  // The request waits for the provider, or is about to fail its row.
  predicate MayStillMail(phase: Phase) {
    phase.Mailing? || phase.Refused?
  }

  // The freed key is claimed again while the first claim's message is out or on its way.
  lemma {:induction false} FreedAcceptsTwice(from: Run<Label>, s: State, k: Key, r: nat)
    requires At(from, from, s, k, OneAcceptance) && Free(s, k)
    requires s.accepted[k] == 0 ==>
               r in s.requests && s.requests[r].key == k && MayStillMail(s.requests[r].phase)
    ensures CanAcceptTwice(from, k)
  {
    var longer, s1, a := ClaimAgain(from, from, s, k, OneAcceptance);
    if s.accepted[k] > 0 {
      var s2: State;
      longer, s2 := Next(from, longer, s1, a, Accept, k, OneAcceptance);
    } else if s.requests[r].phase.Mailing? {
      BothAccepted(from, longer, s1, k, r, a);
    } else {
      RunKeepsLocks(longer);
      FailingFrees(s1, k);
      var s2: State, s3: State, b: nat;
      longer, s2 := Next(from, longer, s1, r, MarkFailed(Applied), k, OneAcceptance);
      assert Free(s2, k);
      longer, s3, b := ClaimAgain(from, longer, s2, k, OneAcceptance);
      BothAccepted(from, longer, s3, k, a, b);
    }
  }

  // After "not sent" commits, some continuation accepts two messages of the key, with no
  // further harmful verdict on it, exactly when the row was SENDING and either a message
  // had been accepted (the answer was untrue) or a request owned the claim.
  lemma {:induction false} NotSentAcceptsTwiceIff(run: Run<Label>, v: nat)
    requires Exec(run).Some? && v in Exec(run).value.resolutions && !Exec(run).value.resolutions[v].sent
    requires Harmless(run, Exec(run).value.resolutions[v].key, OneAcceptance)
    ensures var s := Exec(run).value; var k := s.resolutions[v].key;
            CanAcceptTwice(Then(run, CommitResolution(v, Applied)), k)
            <==> Matches(s.rows, k, {SENDING}) && (s.accepted[k] > 0 || Owned(s, k))
  {
    var s := Exec(run).value;
    var k, after := s.resolutions[v].key, Then(run, CommitResolution(v, Applied));
    var s1 := Do(s, CommitResolution(v, Applied));
    assert Exec(after) == Some(s1);
    if NotSentHarmless(s, k, OneAcceptance) {
      assert Harmless(after, k, OneAcceptance);
      forall longer | HarmlessAfter(after, longer, k, OneAcceptance)
        ensures Exec(longer).value.accepted[k] <= 1
      {
        HarmlessChains(Start, after, longer, k, OneAcceptance);
        AtMostOneAcceptance(longer, k);
      }
    } else {
      RunKeepsLocks(run);
      RunKeepsMail(run, k);
      FailingFrees(s, k);
      var r: nat := 0;
      if s.accepted[k] == 0 {
        r :| r in s.requests && s.requests[r].key == k && s.requests[r].Owns();
        assert AcceptedBy(s.accepted, s.requests[r]);
      }
      FreedAcceptsTwice(after, s1, k, r);
    }
  }

  // ---- An acceptance without a standing claim ----------------------------------------------

  // A message of the key may be accepted while its row is not as the claim left it.
  predicate Loose(s: State, k: Key) {
    exists r :: r in s.requests && s.requests[r].key == k && s.requests[r].phase.Mailing?
                && !Stands(s.rows, s.requests[r])
  }

  ghost predicate CanAcceptLoosely(run: Run<Label>, k: Key) {
    exists longer :: HarmlessAfter(run, longer, k, StandingClaims) && Loose(Exec(longer).value, k)
  }

  // The freed key is claimed again, and the first claim's request then writes the row of
  // the second.
  lemma {:induction false} FreedIsLoose(from: Run<Label>, s: State, k: Key, r: nat)
    requires At(from, from, s, k, StandingClaims) && Free(s, k)
    requires r in s.requests && s.requests[r].key == k && s.requests[r].Owns()
    ensures CanAcceptLoosely(from, k)
  {
    if s.requests[r].phase.Mailing? {
      assert !Stands(s.rows, s.requests[r]);
      assert Loose(s, k);
    } else {
      var longer, s1, a := ClaimAgain(from, from, s, k, StandingClaims);
      var action := if s.requests[r].phase.Refused? then MarkFailed(Applied)
                    else if s.requests[r].phase.Accepted? then Finalise(Applied) else MarkSent(Applied);
      var s2: State;
      longer, s2 := Next(from, longer, s1, r, action, k, StandingClaims);
      assert !Stands(s2.rows, s2.requests[a]);
      assert Loose(s2, k);
    }
  }

  lemma {:induction false} HarmlessIsNeverLoose(run: Run<Label>, k: Key)
    requires Harmless(run, k, StandingClaims)
    ensures !Loose(Exec(run).value, k)
  {
    RunKeepsStanding(run, k);
  }

  // After a verdict commits, some continuation can accept a message whose row is not as
  // its claim left it, with no further harmful verdict on the key, exactly when "not sent"
  // found the row SENDING under a request that owned it, or "sent" found a request
  // waiting for the provider.
  lemma {:induction false} VerdictLoosensIff(run: Run<Label>, v: nat)
    requires Exec(run).Some? && v in Exec(run).value.resolutions
    requires Harmless(run, Exec(run).value.resolutions[v].key, StandingClaims)
    ensures var s := Exec(run).value; var k := s.resolutions[v].key;
            CanAcceptLoosely(Then(run, CommitResolution(v, Applied)), k)
            <==> if s.resolutions[v].sent then Awaited(s, k) else Matches(s.rows, k, {SENDING}) && Owned(s, k)
  {
    var s := Exec(run).value;
    var k, l := s.resolutions[v].key, CommitResolution(v, Applied);
    var after, s1 := Then(run, l), Do(s, l);
    assert Exec(after) == Some(s1);
    if HarmlessStep(s, l, k, StandingClaims) {
      assert Harmless(after, k, StandingClaims);
      forall longer | HarmlessAfter(after, longer, k, StandingClaims)
        ensures !Loose(Exec(longer).value, k)
      {
        HarmlessChains(Start, after, longer, k, StandingClaims);
        HarmlessIsNeverLoose(longer, k);
      }
    } else if s.resolutions[v].sent {
      RunKeepsStanding(run, k);
      var r :| r in s.requests && s.requests[r].key == k && s.requests[r].phase.Mailing?;
      assert Stands(s.rows, s.requests[r]) && !Stands(s1.rows, s1.requests[r]);
      assert HarmlessAfter(after, after, k, StandingClaims) && Loose(s1, k);
    } else {
      RunKeepsLocks(run);
      FailingFrees(s, k);
      var r :| r in s.requests && s.requests[r].key == k && s.requests[r].Owns();
      FreedIsLoose(after, s1, k, r);
    }
  }

  // ---- A second contact event ------------------------------------------------------------------

  predicate Faithful(s: State, k: Key) {
    s.ledger[k] <= 1 && (k in s.ledger ==> Matches(s.rows, k, {SENT}))
  }

  ghost predicate CanMisrecord(run: Run<Label>, k: Key) {
    exists longer :: HarmlessAfter(run, longer, k, OneEvent) && !Faithful(Exec(longer).value, k)
  }

  // A request that may still record adds a second event.
  lemma {:induction false} RecordsAgain(from: Run<Label>, s: State, k: Key, r: nat)
    requires At(from, from, s, k, OneEvent) && s.ledger[k] >= 1
    requires r in s.requests && s.requests[r].key == k && MayRecord(s.requests[r].phase)
    ensures CanMisrecord(from, k)
  {
    var longer, s1 := from, s;
    if s1.requests[r].phase.Mailing? {
      longer, s1 := Next(from, longer, s1, r, Accept, k, OneEvent);
    }
    if s1.requests[r].phase.Accepted? {
      longer, s1 := Next(from, longer, s1, r, Finalise(Applied), k, OneEvent);
    } else {
      longer, s1 := Next(from, longer, s1, r, Record(Applied), k, OneEvent);
    }
    assert s1.ledger[k] >= 2;
  }

  // After "sent" commits, some continuation has a second event, or one whose row is not
  // SENT, with no further harmful verdict on the key, exactly when the row was neither
  // SENDING nor SENT without its event, or a request may still record the reply.
  lemma {:induction false} SentMisrecordsIff(run: Run<Label>, v: nat)
    requires Exec(run).Some? && v in Exec(run).value.resolutions && Exec(run).value.resolutions[v].sent
    requires Harmless(run, Exec(run).value.resolutions[v].key, OneEvent)
    ensures var s := Exec(run).value; var k := s.resolutions[v].key;
            CanMisrecord(Then(run, CommitResolution(v, Applied)), k)
            <==> (!Matches(s.rows, k, {SENDING}) && !(Matches(s.rows, k, {SENT}) && k !in s.ledger)) || Recordable(s, k)
  {
    var s := Exec(run).value;
    var k, after := s.resolutions[v].key, Then(run, CommitResolution(v, Applied));
    var s1 := Do(s, CommitResolution(v, Applied));
    assert Exec(after) == Some(s1);
    if SentHarmless(s, k, OneEvent) {
      assert Harmless(after, k, OneEvent);
      forall longer | HarmlessAfter(after, longer, k, OneEvent)
        ensures Faithful(Exec(longer).value, k)
      {
        HarmlessChains(Start, after, longer, k, OneEvent);
        OneContactEventPerReply(longer, k);
      }
    } else if Recordable(s, k) {
      var r :| r in s.requests && s.requests[r].key == k && MayRecord(s.requests[r].phase);
      RecordsAgain(after, s1, k, r);
    } else {
      assert !Faithful(s1, k);
      assert HarmlessAfter(after, after, k, OneEvent);
    }
  }
}
