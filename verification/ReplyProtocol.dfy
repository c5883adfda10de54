/**
 Inbox reply sending as a protocol: any number of requests and resolutions,
 interleaved one database statement at a time, with crashes, failed statements
 and statements that commit but report failure.

 The claim runs in a transaction under the thread's row lock; the lock, the
 open-send check and the guarded write are three steps, so other requests may
 run between them.
 */
module ReplyProtocol {
  import opened Wrappers
  import opened ReplyRows

  datatype Phase =
    | Looking                      // before the prior-attempt lookup
    | Ready(priorFailed: bool)     // lookup passed, gates still to run
    | Locked(priorFailed: bool)    // transaction open, thread row locked
    | Checked(priorFailed: bool)   // no SENDING row was found on the thread
    | Mailing(claimedAt: nat)      // claim committed, sendMail running
    | Refused(claimedAt: nat)      // sendMail threw; about to mark FAILED
    | Accepted(claimedAt: nat)     // the provider has the message
    | Unsettled(claimedAt: nat)    // the finalise transaction reported failure
    | Recording                    // the fallback wrote SENT; ledger event to come
    | Done(answer: Answer)

  datatype Answer = Success | Duplicate | Rejected | Crashed

  datatype Request = Request(key: Key, thread: Thread, phase: Phase) {
    // The request has claimed its key and may still act on the claim.
    predicate Owns() {
      phase.Mailing? || phase.Refused? || phase.Accepted? || phase.Unsettled?
    }

    predicate InTransaction() {
      phase.Locked? || phase.Checked?
    }
  }

  // A resolution that has read the row as SENDING past the window. The attempt time
  // it read is kept here; its guarded write tests the status only.
  datatype Resolution = Resolution(key: Key, sent: bool, attemptedAt: nat)

  datatype State = State(
    now: nat,
    rows: Table,
    ledger: multiset<Key>,          // SENT contact events, by the row they record
    accepted: multiset<Key>,        // messages the provider accepted, by key
    settled: set<Key>,              // rows made SENT by finalise or a resolution
    locks: map<Thread, nat>,        // row locks held, by request
    requests: map<nat, Request>,
    resolutions: map<nat, Resolution>)

  // What became of one statement or transaction.
  datatype Commit = Applied | AppliedUnreported | RolledBack

  // What one request does next.
  datatype Action =
    | LookUp
    | Decline
    | Lock
    | CheckOpen
    | Claim(commit: Commit)
    | Accept
    | Throw
    | MarkFailed(commit: Commit)
    | Finalise(commit: Commit)
    | MarkSent(commit: Commit)
    | Record(commit: Commit)
    | Crash

  datatype Label =
    | Tick(elapsed: nat)
    | Arrive(r: nat, key: Key, thread: Thread)
    | Act(r: nat, action: Action)
    | OpenResolution(v: nat, key: Key, sent: bool)
    | CommitResolution(v: nat, commit: Commit)
    | DropResolution(v: nat)

  const INIT := State(0, map[], multiset{}, multiset{}, {}, map[], map[], map[])

  // ---- Steps -----------------------------------------------------------------

  predicate CanAct(phase: Phase, action: Action) {
    match action
    case LookUp => phase.Looking?
    case Decline => phase.Ready?
    case Lock => phase.Ready?
    case CheckOpen => phase.Locked?
    case Claim(_) => phase.Checked?
    case Accept => phase.Mailing?
    case Throw => phase.Mailing?
    case MarkFailed(_) => phase.Refused?
    case Finalise(_) => phase.Accepted?
    case MarkSent(_) => phase.Unsettled?
    case Record(_) => phase.Recording?
    case Crash => !phase.Done?
  }

  predicate Enabled(s: State, l: Label) {
    match l
    case Tick(_) => true
    case Arrive(r, key, thread) => r !in s.requests && key.workspace == thread.workspace
    case Act(r, action) =>
      && r in s.requests && CanAct(s.requests[r].phase, action)
      && (action.Lock? ==> s.requests[r].thread !in s.locks)
    case OpenResolution(v, key, _) =>
      v !in s.resolutions && key in s.rows && s.rows[key].status == SENDING && !InFlight(s.rows[key], s.now)
    case CommitResolution(v, _) => v in s.resolutions
    case DropResolution(v) => v in s.resolutions
  }

  // The prior-attempt lookup: a SENT key answers at once, a SENDING one is in
  // the way, a FAILED one may be claimed again.
  function AfterLookUp(s: State, q: Request): Phase {
    if q.key !in s.rows then Ready(false)
    else if s.rows[q.key].thread != q.thread || s.rows[q.key].status == SENDING then Done(Rejected)
    else if s.rows[q.key].status == SENT then Done(Duplicate)
    else Ready(true)
  }

  // The claim's guarded write changes a row: `updateMany` counts 1, or `create`
  // meets no unique key.
  predicate Wins(t: Table, q: Request)
    requires q.phase.Checked?
  {
    if q.phase.priorFailed then Matches(t, q.key, {FAILED}) else q.key !in t
  }

  function NextPhase(s: State, q: Request, action: Action): Phase
    requires CanAct(q.phase, action)
  {
    match action
    case LookUp => AfterLookUp(s, q)
    case Decline => Done(Rejected)
    case Lock => Locked(q.phase.priorFailed)
    case CheckOpen => if Open(s.rows, q.thread) then Done(Rejected) else Checked(q.phase.priorFailed)
    // A commit whose answer is lost ends the request with its row left SENDING.
    case Claim(commit) => if Wins(s.rows, q) && commit.Applied? then Mailing(s.now) else Done(Rejected)
    case Accept => Accepted(q.phase.claimedAt)
    case Throw => Refused(q.phase.claimedAt)
    case MarkFailed(_) => Done(Rejected)
    case Finalise(commit) => if commit.Applied? then Done(Success) else Unsettled(q.phase.claimedAt)
    // `marked?.count` is seen only when the statement reported back.
    case MarkSent(commit) => if commit.Applied? && Matches(s.rows, q.key, {SENDING}) then Recording else Done(Success)
    case Record(_) => Done(Success)
    case Crash => Done(Crashed)
  }

  function NextRows(s: State, q: Request, action: Action): Table
    requires CanAct(q.phase, action)
  {
    match action
    case Claim(commit) =>
      if commit.RolledBack? || !Wins(s.rows, q) then s.rows
      else Claimed(s.rows, q.key, q.thread, q.phase.priorFailed, s.now)
    case MarkFailed(commit) => if commit.RolledBack? then s.rows else Restatus(s.rows, q.key, {SENDING}, FAILED)
    case Finalise(commit) =>
      if commit.RolledBack? then s.rows else Restatus(s.rows, q.key, {SENDING, SENT, FAILED}, SENT)
    case MarkSent(commit) => if commit.RolledBack? then s.rows else Restatus(s.rows, q.key, {SENDING}, SENT)
    case _ => s.rows
  }

  function NextLedger(s: State, q: Request, action: Action): multiset<Key> {
    if (action.Finalise? || action.Record?) && !action.commit.RolledBack? then s.ledger + multiset{q.key} else s.ledger
  }

  function NextSettled(s: State, q: Request, action: Action): set<Key> {
    if action.Finalise? && !action.commit.RolledBack? then s.settled + {q.key} else s.settled
  }

  function NextAccepted(s: State, q: Request, action: Action): multiset<Key> {
    if action.Accept? then s.accepted + multiset{q.key} else s.accepted
  }

  // The row lock is held from Lock until the transaction ends.
  function NextLocks(s: State, r: nat, q: Request, action: Action): map<Thread, nat>
    requires CanAct(q.phase, action)
  {
    if action.Lock? then s.locks[q.thread := r]
    else if q.InTransaction() && !NextPhase(s, q, action).Checked? then s.locks - {q.thread}
    else s.locks
  }

  function DoAct(s: State, r: nat, action: Action): State
    requires Enabled(s, Act(r, action))
  {
    var q := s.requests[r];
    State(s.now, NextRows(s, q, action), NextLedger(s, q, action),
      NextAccepted(s, q, action), NextSettled(s, q, action),
      NextLocks(s, r, q, action), s.requests[r := q.(phase := NextPhase(s, q, action))], s.resolutions)
  }

  // The array transaction: the event is created whether or not the claim matched.
  function DoResolve(s: State, v: nat, commit: Commit): State
    requires v in s.resolutions
  {
    var k := s.resolutions[v].key;
    var s' := s.(resolutions := s.resolutions - {v});
    if commit.RolledBack? then s'
    else if s.resolutions[v].sent then
      s'.(rows := Restatus(s.rows, k, {SENDING}, SENT), ledger := s.ledger + multiset{k}, settled := s.settled + {k})
    else s'.(rows := Restatus(s.rows, k, {SENDING}, FAILED))
  }

  function Do(s: State, l: Label): State
    requires Enabled(s, l)
  {
    match l
    case Tick(elapsed) => s.(now := s.now + elapsed)
    case Arrive(r, key, thread) => s.(requests := s.requests[r := Request(key, thread, Looking)])
    case Act(r, action) => DoAct(s, r, action)
    case OpenResolution(v, key, sent) =>
      s.(resolutions := s.resolutions[v := Resolution(key, sent, s.rows[key].attemptedAt)])
    case CommitResolution(v, commit) => DoResolve(s, v, commit)
    case DropResolution(v) => s.(resolutions := s.resolutions - {v})
  }

  // ---- Runs ------------------------------------------------------------------

  // The state a run ends in; None when some step was not enabled.
  function Exec(run: Run<Label>): Option<State> {
    match run
    case Start => Some(INIT)
    case Then(before, l) =>
      var s := Exec(before);
      if s.Some? && Enabled(s.value, l) then Some(Do(s.value, l)) else None
  }

  // Requests stop acting on a claim of the key before the in-flight window is over.
  ghost predicate InTime(s: State, k: Key) {
    forall r :: r in s.requests && s.requests[r].key == k && s.requests[r].Owns() ==>
      s.now < s.requests[r].phase.claimedAt + IN_FLIGHT_MS
  }

  ghost predicate Timely(s: State) {
    forall r :: r in s.requests && s.requests[r].Owns() ==> s.now < s.requests[r].phase.claimedAt + IN_FLIGHT_MS
  }

  // No second resolution is opened on a row while one is being decided.
  ghost predicate Disjoint(s: State, l: Label) {
    l.OpenResolution? ==> forall v :: v in s.resolutions ==> s.resolutions[v].key != l.key
  }

  // A person says "not sent" only when no message of that key was accepted.
  predicate Truthful(s: State, l: Label) {
    l.CommitResolution? && l.v in s.resolutions && !s.resolutions[l.v].sent ==> s.accepted[s.resolutions[l.v].key] == 0
  }

  ghost predicate Assumed(s: State, l: Label, exclusive: bool) {
    Timely(s) && Truthful(s, l) && (exclusive ==> Disjoint(s, l))
  }

  // A run whose every step met the assumptions; `exclusive` asks for Disjoint too.
  ghost predicate Careful(run: Run<Label>, exclusive: bool) {
    Exec(run).Some? && (run.Then? ==>
      Careful(run.before, exclusive) && Assumed(Exec(run.before).value, run.last, exclusive))
  }

  // ---- Harmless verdicts -------------------------------------------------------

  // Some request has claimed the key and may still act on the claim.
  predicate Owned(s: State, k: Key) {
    exists r :: r in s.requests && s.requests[r].key == k && s.requests[r].Owns()
  }

  // Some request waits for the provider's answer.
  predicate Awaited(s: State, k: Key) {
    exists r :: r in s.requests && s.requests[r].key == k && s.requests[r].phase.Mailing?
  }

  // Some request may still add a contact event for the key.
  predicate Recordable(s: State, k: Key) {
    exists r :: r in s.requests && s.requests[r].key == k && MayRecord(s.requests[r].phase)
  }

  predicate MayRecord(phase: Phase) {
    phase.Mailing? || phase.Accepted? || phase.Recording?
  }

  // What a verdict must leave intact: one acceptance per key, acceptances only under a
  // standing claim, or one contact event per reply.
  datatype Care = OneAcceptance | StandingClaims | OneEvent

  // "Not sent" frees no claim that a request still acts on and, where acceptances
  // count, is true.
  predicate NotSentHarmless(s: State, k: Key, care: Care) {
    Matches(s.rows, k, {SENDING}) ==> !Owned(s, k) && (care.OneAcceptance? ==> s.accepted[k] == 0)
  }

  // "Sent" closes no claim under which a message may still be accepted and, where events
  // count, adds the only event there will be, to a row that is or becomes SENT.
  predicate SentHarmless(s: State, k: Key, care: Care) {
    match care
    case OneAcceptance => true
    case StandingClaims => !Awaited(s, k)
    case OneEvent =>
      (Matches(s.rows, k, {SENDING}) || (Matches(s.rows, k, {SENT}) && k !in s.ledger)) && !Recordable(s, k)
  }

  // The step commits a verdict on the key.
  predicate Decides(s: State, l: Label, k: Key) {
    l.CommitResolution? && !l.commit.RolledBack? && l.v in s.resolutions && s.resolutions[l.v].key == k
  }

  predicate HarmlessStep(s: State, l: Label, k: Key, care: Care) {
    Decides(s, l, k) ==>
      if s.resolutions[l.v].sent then SentHarmless(s, k, care) else NotSentHarmless(s, k, care)
  }

  // `longer` adds to `run` steps whose verdicts on the key are harmless; verdicts on
  // other keys may be anything.
  ghost predicate HarmlessAfter(run: Run<Label>, longer: Run<Label>, k: Key, care: Care) {
    Exec(longer).Some? &&
    (run == longer || (longer.Then? && HarmlessAfter(run, longer.before, k, care)
                       && HarmlessStep(Exec(longer.before).value, longer.last, k, care)))
  }

  ghost predicate Harmless(run: Run<Label>, k: Key, care: Care) {
    HarmlessAfter(Start, run, k, care)
  }
}
