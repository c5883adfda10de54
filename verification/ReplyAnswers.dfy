/**
 What a reply request's answer says: a duplicate was SENT, a retry after SENT is a
 duplicate, and a success was accepted and recorded.
 */
module ReplyAnswers {
  import opened Wrappers
  import opened ReplyRows
  import opened ReplyProtocol
  import opened ReplySafety

  // A row keeps its thread for good.
  lemma {:induction false} ThreadsStay(s: State, l: Label, k: Key)
    requires LockInv(s) && Enabled(s, l) && k in s.rows
    ensures k in Do(s, l).rows && Do(s, l).rows[k].thread == s.rows[k].thread
  {
    if l.Act? && k != s.requests[l.r].key {
      OtherRowsKept(s, s.requests[l.r], l.action);
    }
  }

  // The reply of this key went out on this thread.
  predicate SentOn(t: Table, k: Key, thread: Thread) {
    Matches(t, k, {SENT}) && t[k].thread == thread
  }

  lemma {:induction false} SentOnStays(s: State, l: Label, k: Key, thread: Thread)
    requires LockInv(s) && Enabled(s, l) && SentOn(s.rows, k, thread)
    ensures SentOn(Do(s, l).rows, k, thread)
  {
    SentStaysSent(s, l, k);
    ThreadsStay(s, l, k);
  }

  // A request answered as a duplicate finds its own reply recorded as SENT, on its own
  // thread: in every run.
  lemma {:induction false} DuplicateMeansSent(run: Run<Label>, r: nat)
    requires Exec(run).Some? && r in Exec(run).value.requests && Exec(run).value.requests[r].phase == Done(Duplicate)
    ensures SentOn(Exec(run).value.rows, Exec(run).value.requests[r].key, Exec(run).value.requests[r].thread)
  {
    var s, l := Exec(run.before).value, run.last;
    RunKeepsLocks(run.before);
    if r in s.requests && s.requests[r].phase == Done(Duplicate) {
      DuplicateMeansSent(run.before, r);
      SentOnStays(s, l, s.requests[r].key, s.requests[r].thread);
    } else {
      OnlyLookUpAnswersDuplicate(s, l, r);
    }
  }

  lemma {:induction false} DuplicateFromLookUp(s: State, q: Request, action: Action)
    requires CanAct(q.phase, action) && NextPhase(s, q, action) == Done(Duplicate)
    ensures action.LookUp? && SentOn(s.rows, q.key, q.thread) && NextRows(s, q, action) == s.rows
  {
  }

  lemma {:induction false} OnlyLookUpAnswersDuplicate(s: State, l: Label, r: nat)
    requires Enabled(s, l) && r in Do(s, l).requests && Do(s, l).requests[r].phase == Done(Duplicate)
    requires r in s.requests ==> s.requests[r].phase != Done(Duplicate)
    ensures r in s.requests && SentOn(s.rows, s.requests[r].key, s.requests[r].thread)
    ensures Do(s, l).rows == s.rows && Do(s, l).requests[r] == s.requests[r].(phase := Done(Duplicate))
  {
    if l.Act? && l.r == r {
      DuplicateFromLookUp(s, s.requests[r], l.action);
    }
  }

  // Where a request can be that looks its key up after the reply went out.
  predicate MeetsSent(phase: Phase) {
    phase.Looking? || phase == Done(Duplicate) || phase == Done(Crashed)
  }

  lemma {:induction false} LookUpAfterSent(s: State, r: nat)
    requires r in s.requests && s.requests[r].phase.Looking?
    requires SentOn(s.rows, s.requests[r].key, s.requests[r].thread)
    ensures Enabled(s, Act(r, LookUp)) && Do(s, Act(r, LookUp)).requests[r].phase == Done(Duplicate)
  {
  }

  lemma {:induction false} RetryStep(s: State, l: Label, r: nat)
    requires Enabled(s, l) && r in s.requests && MeetsSent(s.requests[r].phase)
    requires SentOn(s.rows, s.requests[r].key, s.requests[r].thread)
    ensures r in Do(s, l).requests && MeetsSent(Do(s, l).requests[r].phase)
    ensures Do(s, l).requests[r] == s.requests[r].(phase := Do(s, l).requests[r].phase)
  {
    if l.Act? && l.r == r && l.action.LookUp? {
      LookUpAfterSent(s, r);
    }
  }

  lemma {:induction false} NewRequestsLook(s: State, l: Label, r: nat)
    requires Enabled(s, l) && r !in s.requests && r in Do(s, l).requests
    ensures Do(s, l).requests[r].phase.Looking?
  {
  }

  lemma {:induction false} RequestsStay(s: State, l: Label, r: nat)
    requires Enabled(s, l) && r in s.requests
    ensures r in Do(s, l).requests
    ensures Do(s, l).requests[r].key == s.requests[r].key && Do(s, l).requests[r].thread == s.requests[r].thread
  {
  }

  // Once a reply is SENT, a retry that has not looked it up yet, or comes later, is
  // answered as a duplicate or crashes: it never reaches the provider.
  lemma {:induction false} RetryAfterSent(run: Run<Label>, longer: Run<Label>, r: nat, k: Key, thread: Thread)
    requires Prefix(run, longer) && Exec(run).Some? && Exec(longer).Some? && SentOn(Exec(run).value.rows, k, thread)
    requires r in Exec(run).value.requests ==> Exec(run).value.requests[r].phase.Looking?
    requires r in Exec(longer).value.requests
    requires Exec(longer).value.requests[r].key == k && Exec(longer).value.requests[r].thread == thread
    ensures MeetsSent(Exec(longer).value.requests[r].phase)
  {
    if run != longer {
      var s := Exec(longer.before).value;
      SentOnAlong(run, longer.before, k, thread);
      if r in s.requests {
        RequestsStay(s, longer.last, r);
        RetryAfterSent(run, longer.before, r, k, thread);
        RetryStep(s, longer.last, r);
      } else {
        NewRequestsLook(s, longer.last, r);
      }
    }
  }

  lemma {:induction false} SentOnAlong(run: Run<Label>, longer: Run<Label>, k: Key, thread: Thread)
    requires Prefix(run, longer) && Exec(run).Some? && Exec(longer).Some? && SentOn(Exec(run).value.rows, k, thread)
    ensures SentOn(Exec(longer).value.rows, k, thread)
  {
    if run != longer {
      SentOnAlong(run, longer.before, k, thread);
      RunKeepsLocks(longer.before);
      SentOnStays(Exec(longer.before).value, longer.last, k, thread);
    }
  }

  // A statement of the fallback was lost: the status write, or the event after it.
  predicate FallbackLost(run: Run<Label>, r: nat) {
    run.Then? && (FallbackLost(run.before, r) || (run.last.Act? && run.last.r == r && LosesTrace(run.last.action)))
  }

  predicate LosesTrace(action: Action) {
    (action.MarkSent? && !action.commit.Applied?) || (action.Record? && action.commit.RolledBack?)
  }

  predicate Traced(s: State, k: Key) {
    Matches(s.rows, k, {SENT}) && k in s.ledger
  }

  // The finalise transaction left its trace, whether or not it said so.
  predicate TraceOk(s: State, q: Request, lost: bool) {
    && (q.phase.Unsettled? && Matches(s.rows, q.key, {SENT}) ==> q.key in s.ledger)
    && (q.phase == Done(Success) ==> Traced(s, q.key) || lost)
  }

  lemma {:induction false} TraceStep(s: State, r: nat, action: Action, lost: bool)
    requires Enabled(s, Act(r, action)) && TraceOk(s, s.requests[r], lost)
    requires HoldsRow(s.rows, s.requests[r]) && RecordedBy(s, s.requests[r])
    ensures TraceOk(DoAct(s, r, action), DoAct(s, r, action).requests[r], lost || LosesTrace(action))
  {
  }

  // A step that leaves the key's row and loses no event leaves the trace.
  lemma {:induction false} TraceStays(s: State, s': State, q: Request, lost: bool)
    requires TraceOk(s, q, lost)
    requires Matches(s.rows, q.key, {SENT}) ==> Matches(s'.rows, q.key, {SENT})
    requires forall k :: k in s.ledger ==> k in s'.ledger
    requires q.phase.Unsettled? && Matches(s'.rows, q.key, {SENT}) && !Matches(s.rows, q.key, {SENT}) ==>
               q.key in s'.ledger
    ensures TraceOk(s', q, lost)
  {
  }

  // While a request waits to fall back, only a "sent" verdict turns its row SENT.
  lemma {:induction false} OthersTurnSent(s: State, l: Label, r: nat)
    requires LockInv(s) && Enabled(s, l) && !(l.Act? && l.r == r) && r in s.requests && s.requests[r].phase.Unsettled?
    requires HoldInv(s, s.requests[r].key)
    requires !Matches(s.rows, s.requests[r].key, {SENT}) && Matches(Do(s, l).rows, s.requests[r].key, {SENT})
    ensures s.requests[r].key in Do(s, l).ledger
  {
    if l.Act? {
      if s.requests[l.r].key != s.requests[r].key {
        OtherRowsKept(s, s.requests[l.r], l.action);
      } else {
        WritesOwnRow(s, l.r, l.action, r);
      }
    }
  }

  lemma {:induction false} LedgerGrows(s: State, l: Label)
    requires Enabled(s, l)
    ensures forall k :: k in s.ledger ==> k in Do(s, l).ledger
  {
  }

  lemma {:induction false} TraceOther(s: State, l: Label, r: nat, lost: bool)
    requires LockInv(s) && Enabled(s, l) && !(l.Act? && l.r == r) && r in s.requests && TraceOk(s, s.requests[r], lost)
    requires HoldInv(s, s.requests[r].key)
    ensures r in Do(s, l).requests && TraceOk(Do(s, l), Do(s, l).requests[r], lost)
  {
    var q, s' := s.requests[r], Do(s, l);
    if Matches(s.rows, q.key, {SENT}) {
      SentStaysSent(s, l, q.key);
    }
    LedgerGrows(s, l);
    if q.phase.Unsettled? && Matches(s'.rows, q.key, {SENT}) && !Matches(s.rows, q.key, {SENT}) {
      OthersTurnSent(s, l, r);
    }
    TraceStays(s, s', q, lost);
    OtherRequestStays(s, l, r);
  }

  lemma {:induction false} OtherRequestStays(s: State, l: Label, r: nat)
    requires Enabled(s, l) && !(l.Act? && l.r == r) && r in s.requests
    ensures r in Do(s, l).requests && Do(s, l).requests[r] == s.requests[r]
  {
  }

  // A request that answered success left its row SENT and its event in the ledger,
  // unless a statement of its fallback was lost.
  lemma {:induction false} SuccessIsRecorded(run: Run<Label>, r: nat)
    requires Exec(run).Some? && r in Exec(run).value.requests
    requires Harmless(run, Exec(run).value.requests[r].key, OneEvent)
    ensures TraceOk(Exec(run).value, Exec(run).value.requests[r], FallbackLost(run, r))
  {
    var s, l := Exec(run.before).value, run.last;
    if r in s.requests {
      var k := s.requests[r].key;
      SuccessIsRecorded(run.before, r);
      RunKeepsLocks(run.before);
      RunKeepsHold(run.before, k, OneEvent);
      RunKeepsLedger(run.before, k);
      if l.Act? && l.r == r {
        TraceStep(s, r, l.action, FallbackLost(run.before, r));
      } else {
        TraceOther(s, l, r, FallbackLost(run.before, r));
      }
    }
  }

  // ---- What the provider's answer commits to --------------------------------------------

  predicate AcceptedIn(run: Run<Label>, r: nat) {
    run.Then? && (AcceptedIn(run.before, r) || run.last == Act(r, Accept))
  }

  predicate PastAccept(phase: Phase) {
    phase.Accepted? || phase.Unsettled? || phase.Recording? || phase == Done(Success) || phase == Done(Crashed)
  }

  lemma {:induction false} PastAcceptStep(s: State, l: Label, r: nat)
    requires Enabled(s, l) && r in s.requests
    requires PastAccept(s.requests[r].phase) || l == Act(r, Accept)
    ensures r in Do(s, l).requests && PastAccept(Do(s, l).requests[r].phase)
  {
    if l.Act? && l.r == r {
      AcceptEnds(s, s.requests[r], l.action);
    } else {
      OtherRequestStays(s, l, r);
    }
  }

  lemma {:induction false} AcceptEnds(s: State, q: Request, action: Action)
    requires CanAct(q.phase, action) && (PastAccept(q.phase) || action.Accept?)
    ensures PastAccept(NextPhase(s, q, action))
  {
  }

  // Once its message is accepted a request answers success, whatever statements fail
  // after it, unless it crashes.
  lemma {:induction false} AcceptedIsAnswered(run: Run<Label>, r: nat)
    requires Exec(run).Some? && AcceptedIn(run, r)
    ensures r in Exec(run).value.requests && PastAccept(Exec(run).value.requests[r].phase)
  {
    if AcceptedIn(run.before, r) {
      AcceptedIsAnswered(run.before, r);
    }
    PastAcceptStep(Exec(run.before).value, run.last, r);
  }

  predicate KeyKnown(s: State, r: nat) {
    r in s.requests && s.requests[r].Owns() ==> s.requests[r].key in s.rows
  }

  lemma {:induction false} KeyKnownStep(s: State, l: Label, r: nat)
    requires LockInv(s) && Enabled(s, l) && KeyKnown(s, r)
    ensures KeyKnown(Do(s, l), r)
  {
    if r in s.requests {
      RequestsStay(s, l, r);
      if s.requests[r].key in s.rows {
        ThreadsStay(s, l, s.requests[r].key);
      } else if !(l.Act? && l.r == r) {
        OtherRequestStays(s, l, r);
      }
    } else if r in Do(s, l).requests {
      NewRequestsLook(s, l, r);
    }
  }

  lemma {:induction false} OwnerKnowsItsKey(run: Run<Label>, r: nat)
    requires Exec(run).Some?
    ensures KeyKnown(Exec(run).value, r)
  {
    if run.Then? {
      OwnerKnowsItsKey(run.before, r);
      RunKeepsLocks(run.before);
      KeyKnownStep(Exec(run.before).value, run.last, r);
    }
  }

  // The unguarded write.
  lemma {:induction false} RestatusAny(t: Table, k: Key)
    requires k in t
    ensures Matches(Restatus(t, k, {SENDING, SENT, FAILED}, SENT), k, {SENT})
  {
    var status := t[k].status;
    assert status == SENDING || status == SENT || status == FAILED;
  }

  // A finalise that commits leaves the row SENT, whatever verdicts were given meanwhile,
  // with one more event; one that also reports back ends the request with success.
  lemma {:induction false} FinaliseRecords(run: Run<Label>, r: nat, commit: Commit)
    requires Exec(run).Some? && Enabled(Exec(run).value, Act(r, Finalise(commit))) && !commit.RolledBack?
    ensures var s, q := Exec(run).value, Exec(run).value.requests[r];
            var s' := Do(s, Act(r, Finalise(commit)));
            && Matches(s'.rows, q.key, {SENT}) && s'.ledger[q.key] == s.ledger[q.key] + 1
            && (commit.Applied? ==> s'.requests[r].phase == Done(Success))
  {
    OwnerKnowsItsKey(run, r);
    RestatusAny(Exec(run).value.rows, Exec(run).value.requests[r].key);
  }

  // The commit of an action's statement, if it has one.
  function CommitOf(action: Action): Option<Commit> {
    match action
    case Claim(commit) => Some(commit)
    case MarkFailed(commit) => Some(commit)
    case Finalise(commit) => Some(commit)
    case MarkSent(commit) => Some(commit)
    case Record(commit) => Some(commit)
    case _ => None
  }

  // A statement that is rolled back changes no row and records nothing.
  lemma {:induction false} RolledBackLeavesNoTrace(s: State, r: nat, action: Action)
    requires Enabled(s, Act(r, action)) && CommitOf(action) == Some(RolledBack)
    ensures var s' := Do(s, Act(r, action)); s'.rows == s.rows && s'.ledger == s.ledger
  {
  }

  // ---- The history the theorems count in ---------------------------------------------------

  // The messages of the key that the provider accepted.
  function Accepts(run: Run<Label>, k: Key): nat
    requires Exec(run).Some?
  {
    match run
    case Start => 0
    case Then(before, l) =>
      Accepts(before, k) +
      if l.Act? && l.action.Accept? && Exec(before).value.requests[l.r].key == k then 1 else 0
  }

  // Some finalise or "sent" verdict on the key has committed.
  predicate SettledIn(run: Run<Label>, k: Key)
    requires Exec(run).Some?
  {
    run.Then? && (SettledIn(run.before, k) || Settling(Exec(run.before).value, run.last, k))
  }

  predicate Settling(s: State, l: Label, k: Key)
    requires Enabled(s, l)
  {
    (l.Act? && l.action.Finalise? && !l.action.commit.RolledBack? && s.requests[l.r].key == k)
    || (l.CommitResolution? && !l.commit.RolledBack? && s.resolutions[l.v].sent && s.resolutions[l.v].key == k)
  }

  lemma {:induction false} HistoryStep(s: State, l: Label, k: Key)
    requires Enabled(s, l)
    ensures Do(s, l).accepted[k]
         == s.accepted[k] + if l.Act? && l.action.Accept? && s.requests[l.r].key == k then 1 else 0
    ensures k in Do(s, l).settled <==> k in s.settled || Settling(s, l, k)
  {
  }

  lemma {:induction false} HistoryIsKept(run: Run<Label>, k: Key)
    requires Exec(run).Some?
    ensures Exec(run).value.accepted[k] == Accepts(run, k)
    ensures k in Exec(run).value.settled <==> SettledIn(run, k)
  {
    if run.Then? {
      HistoryIsKept(run.before, k);
      HistoryStep(Exec(run.before).value, run.last, k);
    }
  }
}
