/**
 The gates before a campaign is sent: the preflight forecast and the send request,
 each judged on one snapshot of the workspace. The two routes repeat the same checks
 in their own order, one collecting blockers and the other stopping at the first.
 */
module CampaignGate {
  import opened Wrappers

  datatype Stage = NEW | RESEARCHED | OUTREACH_SENT | REPLIED | BOOKED | CLOSED | DEAD

  datatype Mission = DRAFT | DISCOVERING | REVIEWING | ACTIVE | PAUSED | COMPLETE

  datatype Lead = Lead(email: Option<string>, stage: Stage, approvedDraft: bool)

  datatype Snapshot = Snapshot(
    leads: map<nat, Lead>, enforced: bool, deliverable: bool, mission: Option<Mission>,
    approvalRequired: bool, dailyLimit: Option<int>, sentToday: nat)

  datatype Blocker = DeliverabilityNotConfigured | MissionNotActive | NoApprovedDrafts | DailyCapReached

  datatype Forecast = Forecast(
    ready: bool, blockers: seq<Blocker>,
    totalEligible: nat, approvedEligible: nat, cappedEligible: nat, cappedByDaily: bool)

  datatype Refusal = Undeliverable | NoEligibleLeads | MissionStopped | ApprovalMissing | NothingApproved | CapReached

  datatype Answer = Queued(eligible: nat, dailyCapApplied: bool) | Refused(why: Refusal)

  // ---- What both routes count -------------------------------------------------------------

  predicate Sendable(l: Lead) {
    l.email.Some? && (l.stage == NEW || l.stage == RESEARCHED)
  }

  predicate Asked(ids: Option<set<nat>>, id: nat) {
    ids.Some? ==> id in ids.value
  }

  function Eligible(s: Snapshot, ids: Option<set<nat>>): set<nat> {
    set id | id in s.leads && Sendable(s.leads[id]) && Asked(ids, id)
  }

  function Approved(s: Snapshot, ids: Option<set<nat>>): set<nat> {
    set id | id in s.leads && Sendable(s.leads[id]) && Asked(ids, id) && s.leads[id].approvedDraft
  }

  predicate Limited(s: Snapshot) {
    s.dailyLimit.Some? && s.dailyLimit.value > 0
  }

  function Remaining(s: Snapshot): nat
    requires Limited(s)
  {
    if s.sentToday >= s.dailyLimit.value then 0 else s.dailyLimit.value - s.sentToday
  }

  predicate Stopped(s: Snapshot) {
    s.mission == Some(PAUSED) || s.mission == Some(COMPLETE)
  }

  // The leads that may go out today, the daily limit not yet counted.
  function Cleared(s: Snapshot, ids: Option<set<nat>>): set<nat> {
    if s.approvalRequired then Approved(s, ids) else Eligible(s, ids)
  }

  function Capped(s: Snapshot, n: nat): nat {
    if Limited(s) && Remaining(s) < n then Remaining(s) else n
  }

  // What each blocker says of the snapshot.
  predicate Blocks(s: Snapshot, b: Blocker) {
    match b
    case DeliverabilityNotConfigured => s.enforced && !s.deliverable
    case MissionNotActive => Stopped(s)
    case NoApprovedDrafts => s.approvalRequired && Approved(s, None) == {}
    case DailyCapReached => Limited(s) && Remaining(s) == 0
  }

  function Place(b: Blocker): nat {
    match b
    case DeliverabilityNotConfigured => 0
    case MissionNotActive => 1
    case NoApprovedDrafts => 2
    case DailyCapReached => 3
  }

  // The blockers listed are those that hold, each once, in the order of the checks.
  predicate Lists(s: Snapshot, blockers: seq<Blocker>, checked: nat) {
    && (forall b :: b in blockers <==> Blocks(s, b) && Place(b) < checked)
    && (forall i, j :: 0 <= i < j < |blockers| ==> Place(blockers[i]) < Place(blockers[j]))
  }

  predicate Unblocked(s: Snapshot) {
    forall b :: !Blocks(s, b)
  }

  // What Preflight promises about its answer. A used-up limit blocks and leaves the
  // number uncapped.
  predicate Forecasts(s: Snapshot, f: Forecast) {
    && Lists(s, f.blockers, 4) && (f.ready <==> f.blockers == [])
    && f.totalEligible == |Eligible(s, None)| && f.approvedEligible == |Cleared(s, None)|
    && f.cappedEligible == (if Blocks(s, DailyCapReached) then f.approvedEligible else Capped(s, f.approvedEligible))
    && (f.cappedByDaily <==> f.cappedEligible < f.approvedEligible)
  }

  // ---- The two routes ------------------------------------------------------------------------

  function If(blockers: seq<Blocker>, blocked: bool, b: Blocker): seq<Blocker> {
    if blocked then blockers + [b] else blockers
  }

  lemma ListsNext(s: Snapshot, blockers: seq<Blocker>, b: Blocker)
    requires Lists(s, blockers, Place(b))
    ensures Lists(s, If(blockers, Blocks(s, b), b), Place(b) + 1)
  {
    forall c ensures Place(c) == Place(b) <==> c == b {
    }
    assert forall i :: 0 <= i < |blockers| ==> blockers[i] in blockers;
  }

  function FoundEarly(s: Snapshot): seq<Blocker> {
    If(If([], Blocks(s, DeliverabilityNotConfigured), DeliverabilityNotConfigured),
       Blocks(s, MissionNotActive), MissionNotActive)
  }

  function Found(s: Snapshot): seq<Blocker> {
    If(If(FoundEarly(s), Blocks(s, NoApprovedDrafts), NoApprovedDrafts), Blocks(s, DailyCapReached), DailyCapReached)
  }

  lemma FoundEarlyIsListed(s: Snapshot)
    ensures Lists(s, FoundEarly(s), Place(NoApprovedDrafts))
  {
    ListsNext(s, [], DeliverabilityNotConfigured);
    ListsNext(s, If([], Blocks(s, DeliverabilityNotConfigured), DeliverabilityNotConfigured), MissionNotActive);
  }

  lemma FoundIsListed(s: Snapshot)
    ensures Lists(s, Found(s), 4)
  {
    FoundEarlyIsListed(s);
    ListsNext(s, FoundEarly(s), NoApprovedDrafts);
    ListsNext(s, If(FoundEarly(s), Blocks(s, NoApprovedDrafts), NoApprovedDrafts), DailyCapReached);
  }

  method Preflight(s: Snapshot) returns (f: Forecast)
    ensures Forecasts(s, f)
  {
    var blockers, ready := [], true;
    if s.enforced && !s.deliverable {
      ready, blockers := false, blockers + [DeliverabilityNotConfigured];
    }
    if Stopped(s) {
      ready, blockers := false, blockers + [MissionNotActive];
    }
    var totalEligible := |Eligible(s, None)|;
    var approvedEligible := totalEligible;
    if s.approvalRequired {
      approvedEligible := |Approved(s, None)|;
      if approvedEligible == 0 {
        ready, blockers := false, blockers + [NoApprovedDrafts];
      }
    }
    var cappedEligible, cappedByDaily := approvedEligible, false;
    if Limited(s) {
      var remaining := Remaining(s);
      if remaining == 0 {
        ready, blockers := false, blockers + [DailyCapReached];
      } else if remaining < approvedEligible {
        cappedEligible, cappedByDaily := remaining, true;
      }
    }
    assert blockers == Found(s);
    FoundIsListed(s);
    f := Forecast(ready, blockers, totalEligible, approvedEligible, cappedEligible, cappedByDaily);
  }

  lemma ReadyIff(s: Snapshot, f: Forecast)
    requires Forecasts(s, f)
    ensures f.ready <==> Unblocked(s)
  {
    if f.blockers == [] {
      forall b ensures !Blocks(s, b) {
        assert b !in f.blockers;
      }
    } else {
      assert f.blockers[0] in f.blockers;
    }
  }

  // What each refusal says of the snapshot and the request.
  predicate Holds(s: Snapshot, ids: Option<set<nat>>, approved: bool, why: Refusal) {
    match why
    case Undeliverable => s.enforced && !s.deliverable
    case NoEligibleLeads => Eligible(s, ids) == {}
    case MissionStopped => Stopped(s)
    case ApprovalMissing => s.approvalRequired && !approved
    case NothingApproved => s.approvalRequired && Approved(s, ids) == {}
    case CapReached => Limited(s) && Remaining(s) == 0
  }

  // Earlier checks answer first.
  function Rank(why: Refusal): nat {
    match why
    case Undeliverable => 0
    case NoEligibleLeads => 1
    case MissionStopped => 2
    case ApprovalMissing => 3
    case NothingApproved => 4
    case CapReached => 5
  }

  // What Send promises: it queues only when no refusal holds, and then as many cleared
  // leads as today's limit leaves; a refusal holds, and is the first that does.
  ghost predicate Answers(s: Snapshot, ids: Option<set<nat>>, approved: bool, a: Answer) {
    && (a.Queued? ==>
          && (forall why :: !Holds(s, ids, approved, why))
          && 0 < a.eligible <= |Cleared(s, ids)|
          && (Limited(s) ==> s.sentToday + a.eligible <= s.dailyLimit.value)
          && (a.eligible < |Cleared(s, ids)| ==> Limited(s) && s.sentToday + a.eligible == s.dailyLimit.value)
          && (a.dailyCapApplied <==> a.eligible < |Cleared(s, ids)|))
    && (a.Refused? ==>
          && Holds(s, ids, approved, a.why)
          && forall why :: Holds(s, ids, approved, why) ==> Rank(a.why) <= Rank(why))
  }

  method Send(s: Snapshot, ids: Option<set<nat>>, approved: bool) returns (a: Answer)
    ensures Answers(s, ids, approved, a)
  {
    if s.enforced && !s.deliverable { return Refused(Undeliverable); }
    var eligible := |Eligible(s, ids)|;
    if eligible == 0 {
      assert Holds(s, ids, approved, NoEligibleLeads);
      return Refused(NoEligibleLeads);
    }
    if Stopped(s) { return Refused(MissionStopped); }
    if s.approvalRequired {
      if !approved { return Refused(ApprovalMissing); }
      var approvedEligible := |Approved(s, ids)|;
      if approvedEligible == 0 { return Refused(NothingApproved); }
      eligible := approvedEligible;
    }
    var cappedEligible := eligible;
    if Limited(s) {
      var remaining := Remaining(s);
      if remaining == 0 { return Refused(CapReached); }
      cappedEligible := if eligible < remaining then eligible else remaining;
    }
    a := Queued(cappedEligible, cappedEligible < eligible);
  }

  // ---- The forecast is what the send route does ---------------------------------------------------

  lemma SomeCleared(s: Snapshot, ids: Option<set<nat>>)
    ensures Cleared(s, ids) <= Eligible(s, ids) && Cleared(s, ids) <= Cleared(s, None)
    ensures |Cleared(s, ids)| == 0 <==> Cleared(s, ids) == {}
  {
  }

  lemma QueuedIff(s: Snapshot, ids: Option<set<nat>>, approved: bool, a: Answer)
    requires Answers(s, ids, approved, a)
    ensures a.Queued? <==> Cleared(s, ids) != {} && (s.approvalRequired ==> approved) && Unblocked(s)
    ensures a.Queued? ==> a.eligible == Capped(s, |Cleared(s, ids)|)
  {
    SomeCleared(s, ids);
    SomeCleared(s, None);
    if Cleared(s, ids) != {} && (s.approvalRequired ==> approved) && Unblocked(s) {
      assert !Blocks(s, DeliverabilityNotConfigured) && !Blocks(s, MissionNotActive) && !Blocks(s, DailyCapReached);
      forall why ensures !Holds(s, ids, approved, why) {
      }
    } else {
      assert Cleared(s, ids) == {} ==>
        Holds(s, ids, approved, if s.approvalRequired then NothingApproved else NoEligibleLeads);
      assert s.approvalRequired && !approved ==> Holds(s, ids, approved, ApprovalMissing);
      if Cleared(s, ids) != {} && !Unblocked(s) {
        BlockerRefuses(s, ids, approved);
      }
    }
  }

  lemma BlockerRefuses(s: Snapshot, ids: Option<set<nat>>, approved: bool)
    requires Cleared(s, ids) != {} && !Unblocked(s)
    ensures Holds(s, ids, approved, Undeliverable) || Holds(s, ids, approved, MissionStopped)
         || Holds(s, ids, approved, CapReached)
  {
    SomeCleared(s, ids);
    assert Approved(s, ids) <= Approved(s, None);
  }

  // A confirmed send of the whole campaign is queued exactly when the forecast is ready
  // with a lead to send, and then for the number forecast.
  lemma ForecastIsTheSendIff(s: Snapshot, f: Forecast, a: Answer)
    requires Forecasts(s, f) && Answers(s, None, true, a)
    ensures a.Queued? <==> f.ready && f.cappedEligible > 0
    ensures a.Queued? ==> a.eligible == f.cappedEligible && a.dailyCapApplied == f.cappedByDaily
  {
    SomeCleared(s, None);
    ReadyIff(s, f);
    QueuedIff(s, None, true, a);
  }

  // With chosen leads: besides a ready forecast it takes the confirmation, where one
  // is required, and a chosen lead that may be sent; no more is queued than forecast.
  lemma ChosenLeadsSendIff(s: Snapshot, f: Forecast, ids: Option<set<nat>>, approved: bool, a: Answer)
    requires Forecasts(s, f) && Answers(s, ids, approved, a)
    ensures a.Queued? <==> f.ready && (s.approvalRequired ==> approved) && Cleared(s, ids) != {}
    ensures a.Queued? ==> 0 < a.eligible <= f.cappedEligible
  {
    SomeCleared(s, ids);
    ReadyIff(s, f);
    QueuedIff(s, ids, approved, a);
    SubsetIsNoLarger(Cleared(s, ids), Cleared(s, None));
  }

  lemma {:induction false} SubsetIsNoLarger(a: set<nat>, b: set<nat>)
    requires a <= b
    ensures |a| <= |b|
  {
    if a != {} {
      var x :| x in a;
      SubsetIsNoLarger(a - {x}, b - {x});
    }
  }

  function BlockerFor(why: Refusal): Option<Blocker> {
    match why
    case Undeliverable => Some(DeliverabilityNotConfigured)
    case MissionStopped => Some(MissionNotActive)
    case NothingApproved => Some(NoApprovedDrafts)
    case CapReached => Some(DailyCapReached)
    case NoEligibleLeads => None
    case ApprovalMissing => None
  }

  // The whole campaign refused for a reason with a blocker: the forecast named it.
  lemma RefusalWasForecast(s: Snapshot, f: Forecast, approved: bool, a: Answer)
    requires Forecasts(s, f) && Answers(s, None, approved, a) && a.Refused? && BlockerFor(a.why).Some?
    ensures !f.ready && BlockerFor(a.why).value in f.blockers
  {
  }

  // ---- The answers, read off the snapshot -----------------------------------------------------------

  // A lead that goes out: among those asked for, with an e-mail, not yet written to, and
  // with an approved draft where one is required.
  predicate GoesOut(s: Snapshot, ids: Option<set<nat>>, id: nat) {
    && id in s.leads && (ids == None || id in ids.value)
    && s.leads[id].email != None && s.leads[id].stage in {NEW, RESEARCHED}
    && (s.approvalRequired ==> s.leads[id].approvedDraft)
  }

  predicate UsedUp(s: Snapshot) {
    s.dailyLimit.Some? && 0 < s.dailyLimit.value <= s.sentToday
  }

  lemma ClearedGoOut(s: Snapshot, ids: Option<set<nat>>)
    ensures forall id :: id in Cleared(s, ids) <==> GoesOut(s, ids, id)
    ensures forall id :: id in Eligible(s, ids) <==> GoesOut(s.(approvalRequired := false), ids, id)
  {
  }

  // Each blocker is forecast exactly when the snapshot says so.
  lemma {:induction false} ForecastNames(s: Snapshot, f: Forecast)
    requires Forecasts(s, f)
    ensures DeliverabilityNotConfigured in f.blockers <==> s.enforced && !s.deliverable
    ensures MissionNotActive in f.blockers <==> s.mission in {Some(PAUSED), Some(COMPLETE)}
    ensures NoApprovedDrafts in f.blockers <==> s.approvalRequired && forall id :: !GoesOut(s, None, id)
    ensures DailyCapReached in f.blockers <==> UsedUp(s)
  {
    ClearedGoOut(s, None);
    if s.approvalRequired && Cleared(s, None) != {} {
      var id :| id in Cleared(s, None);
      assert GoesOut(s, None, id);
    }
  }

  // A send is queued exactly when mail can be delivered, the mission runs, the
  // confirmation is there if required, a lead goes out, and the limit is not used up.
  lemma {:induction false} SendQueuesIff(s: Snapshot, ids: Option<set<nat>>, approved: bool, a: Answer)
    requires Answers(s, ids, approved, a)
    ensures a.Queued? <==>
      && (s.enforced ==> s.deliverable) && s.mission !in {Some(PAUSED), Some(COMPLETE)}
      && (s.approvalRequired ==> approved) && !UsedUp(s) && exists id :: GoesOut(s, ids, id)
  {
    ClearedGoOut(s, ids);
    ClearedGoOut(s, None);
    QueuedIff(s, ids, approved, a);
    SomeCleared(s, ids);
    assert Cleared(s, ids) != {} <==> exists id :: GoesOut(s, ids, id) by {
      if id :| id in Cleared(s, ids) {
        assert GoesOut(s, ids, id);
      }
    }
    if Cleared(s, ids) != {} {
      assert !Blocks(s, NoApprovedDrafts);
      UnblockedIff(s);
    }
  }

  lemma UnblockedIff(s: Snapshot)
    ensures Unblocked(s) <==>
      && (s.enforced ==> s.deliverable) && s.mission !in {Some(PAUSED), Some(COMPLETE)}
      && !Blocks(s, NoApprovedDrafts) && !UsedUp(s)
  {
    assert Blocks(s, DeliverabilityNotConfigured) <==> s.enforced && !s.deliverable;
    assert Blocks(s, MissionNotActive) <==> Stopped(s);
    assert Blocks(s, DailyCapReached) <==> UsedUp(s);
  }
}
