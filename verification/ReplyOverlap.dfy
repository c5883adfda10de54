/**
 Why two resolutions of one row must not overlap. Requests end within the window and
 every answer is true in these runs, and still a reply is accepted twice, or recorded
 twice: the resolve route checks the row's age in one statement and writes in another
 that tests the status only, and its array transaction creates the contact event even
 when the guarded write matched nothing.
 */
module ReplyOverlap {
  import opened Wrappers
  import opened ReplyRows
  import opened ReplyProtocol
  import opened ReplySteps

  // `run` ends in `s`, and only resolutions may have overlapped in it.
  ghost predicate At(run: Run<Label>, s: State) {
    Careful(run, false) && Exec(run) == Some(s)
  }

  lemma {:induction false} Next(run: Run<Label>, s: State, l: Label) returns (longer: Run<Label>, s': State)
    requires At(run, s) && Enabled(s, l) && Assumed(s, l, false)
    ensures At(longer, s') && s' == Do(s, l)
  {
    longer, s' := Then(run, l), Do(s, l);
  }

  lemma {:induction false} ActNext(run: Run<Label>, s: State, r: nat, action: Action)
    returns (longer: Run<Label>, s': State)
    requires At(run, s) && Enabled(s, Act(r, action)) && Timely(s)
    ensures At(longer, s') && s' == DoAct(s, r, action)
  {
    longer, s' := Next(run, s, Act(r, action));
  }

  lemma {:induction false} TimelyWith(s: State, r: nat, k: Key, t: Thread, phase: Phase)
    requires Timely(s)
    requires Request(k, t, phase).Owns() ==> s.now < phase.claimedAt + IN_FLIGHT_MS
    ensures Timely(With(s, r, k, t, phase))
  {
  }

  // Request `r` alone on the thread, from its arrival to its claim's commit.
  lemma {:induction false} ClaimAlone(run: Run<Label>, s: State, r: nat, k: Key, t: Thread, commit: Commit)
    returns (longer: Run<Label>, s': State)
    requires At(run, s) && Timely(s) && s.locks == map[] && Claimable(s, k, t)
    requires r !in s.requests && k.workspace == t.workspace && !commit.RolledBack?
    ensures At(longer, s') && s' == Taken(s, r, k, t, commit) && Timely(s')
  {
    var failed := k in s.rows;
    TimelyWith(s, r, k, t, Looking);
    TimelyWith(s, r, k, t, Ready(failed));
    TimelyWith(s, r, k, t, Locked(failed));
    TimelyWith(s, r, k, t, Checked(failed));
    TimelyWith(s, r, k, t, if commit.Applied? then Mailing(s.now) else Done(Rejected));
    LookUpStep(s, r, k, t);
    LockStep(s, r, k, t, failed);
    CheckStep(s, r, k, t, failed);
    ClaimStep(s, r, k, t, commit);
    longer, s' := Next(run, s, Arrive(r, k, t));
    longer, s' := ActNext(longer, s', r, LookUp);
    longer, s' := ActNext(longer, s', r, Lock);
    longer, s' := ActNext(longer, s', r, CheckOpen);
    longer, s' := ActNext(longer, s', r, Claim(commit));
  }

  // One orphaned claim, past the window, with two people deciding it.
  predicate Overlapping(s: State, k: Key, t: Thread, sent: bool) {
    && s.rows == map[k := Row(t, SENDING, 0)] && s.ledger == multiset{} && s.accepted == multiset{} && s.locks == map[]
    && s.requests == map[0 := Request(k, t, Done(Rejected))]
    && s.resolutions == map[0 := Resolution(k, sent, 0), 1 := Resolution(k, sent, 0)]
  }

  // Nothing has happened yet.
  predicate Empty(s: State) {
    && s.now == 0 && s.rows == map[] && s.ledger == multiset{} && s.accepted == multiset{} && s.locks == map[]
    && s.requests == map[] && s.resolutions == map[]
  }

  lemma {:induction false} Begin() returns (run: Run<Label>, s: State)
    ensures At(run, s) && Empty(s)
  {
    run := Start;
    s := Exec(run).value;
    assert Careful(run, false);
  }

  // The claim's answer is lost.
  lemma {:induction false} LostClaim(k: Key, t: Thread) returns (run: Run<Label>, s: State)
    requires k.workspace == t.workspace
    ensures At(run, s) && Timely(s) && s.now == 0 && s.rows == map[k := Row(t, SENDING, 0)]
    ensures s.ledger == multiset{} && s.accepted == multiset{} && s.locks == map[] && s.resolutions == map[]
    ensures s.requests == map[0 := Request(k, t, Done(Rejected))]
  {
    run, s := Begin();
    run, s := ClaimAlone(run, s, 0, k, t, AppliedUnreported);
  }

  // Past the window two people open its resolution.
  lemma {:induction false} TwoResolvers(k: Key, t: Thread, sent: bool) returns (run: Run<Label>, s: State)
    requires k.workspace == t.workspace
    ensures At(run, s) && Overlapping(s, k, t, sent)
  {
    run, s := LostClaim(k, t);
    run, s := Next(run, s, Tick(IN_FLIGHT_MS));
    assert s.rows == map[k := Row(t, SENDING, 0)] && s.now == IN_FLIGHT_MS;
    run, s := Next(run, s, OpenResolution(0, k, sent));
    run, s := Next(run, s, OpenResolution(1, k, sent));
  }

  // Two overlapping "sent" resolutions: two contact events for one reply.
  lemma {:induction false} OverlapRecordsTwice(k: Key, t: Thread) returns (run: Run<Label>)
    requires k.workspace == t.workspace
    ensures Careful(run, false) && Exec(run).value.ledger[k] == 2
  {
    var s: State;
    run, s := TwoResolvers(k, t, true);
    run, s := Next(run, s, CommitResolution(0, Applied));
    assert s.ledger[k] == 1 && 1 in s.resolutions;
    run, s := Next(run, s, CommitResolution(1, Applied));
  }

  // The first "not sent" frees the key, request 1 claims it, and the second "not sent"
  // fails that live claim.
  lemma {:induction false} LiveClaimFailed(k: Key, t: Thread) returns (run: Run<Label>, s: State)
    requires k.workspace == t.workspace
    ensures At(run, s) && Timely(s) && s.locks == map[] && s.accepted == multiset{} && Claimable(s, k, t)
    ensures s.requests.Keys == {0, 1} && s.requests[1] == Request(k, t, Mailing(s.now))
  {
    run, s := TwoResolvers(k, t, false);
    run, s := Next(run, s, CommitResolution(0, Applied));
    assert s.rows == map[k := Row(t, FAILED, 0)];
    run, s := ClaimAlone(run, s, 1, k, t, Applied);
    assert s.rows == map[k := Row(t, SENDING, s.now)] && 1 in s.resolutions;
    run, s := Next(run, s, CommitResolution(1, Applied));
    assert s.rows == map[k := Row(t, FAILED, s.now)];
  }

  // Overlapping true "not sent" resolutions: two accepted messages for one key.
  lemma {:induction false} OverlapSendsTwice(k: Key, t: Thread) returns (run: Run<Label>)
    requires k.workspace == t.workspace
    ensures Careful(run, false) && Exec(run).value.accepted[k] == 2
  {
    var s: State;
    run, s := LiveClaimFailed(k, t);
    run, s := ClaimAlone(run, s, 2, k, t, Applied);
    assert s.requests[1].phase == Mailing(s.now) && s.requests[2].phase == Mailing(s.now);
    run, s := ActNext(run, s, 1, Accept);
    assert s.accepted[k] == 1 && s.requests[2] == Request(k, t, Mailing(s.now)) && Timely(s);
    run, s := ActNext(run, s, 2, Accept);
  }
}
