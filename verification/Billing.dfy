/**
 Stripe webhook events applied to one workspace: what each event type changes,
 the rejection of events older than the newest one applied, the processed-event
 claim that makes redelivery harmless, and the grace deadline of a lapsed
 subscription.
 */
module Billing {
  import opened Wrappers

  const GRACE_MS: nat := 7 * 86_400_000

  datatype Plan = Free | Starter | Growth

  // `other` stands for the remaining Stripe statuses (unpaid, incomplete, …).
  datatype Status = Active | Trialing | PastDue | Canceled | Unlisted(other: nat)

  datatype Workspace = Workspace(
    id: nat,
    status: Option<Status>,
    plan: Plan,
    customer: Option<nat>,
    subscription: Option<nat>,
    graceUntil: Option<nat>,
    lastEventAt: Option<nat>,
    ingestKey: Option<nat>)

  // A plan is None when neither the metadata nor the price names a known one.
  datatype Payload =
    | Checkout(workspaceId: Option<nat>, customer: Option<nat>, linked: Option<nat>, plan: Option<Plan>)
    | Updated(sub: nat, status: Status, plan: Option<Plan>)
    | Deleted(sub: nat)
    | PaymentFailed(invoiced: Option<nat>)
    | PaymentSucceeded(invoiced: Option<nat>)
    | Unhandled

  // `created` is in seconds, as Stripe sends it.
  datatype Event = Event(id: nat, created: Option<nat>, payload: Payload)

  // isStaleStripeEvent
  predicate Stale(created: Option<nat>, lastAppliedAt: Option<nat>) {
    created.Some? && lastAppliedAt.Some? && created.value * 1000 < lastAppliedAt.value
  }

  // graceUntilAfterPastDue: an existing deadline is kept.
  function GraceAfterPastDue(existing: Option<nat>, now: nat): Option<nat> {
    if existing.Some? then existing else Some(now + GRACE_MS)
  }

  function GraceFor(status: Status, grace: Option<nat>, now: nat): Option<nat> {
    match status
    case PastDue => GraceAfterPastDue(grace, now)
    case Active => None
    case Trialing => None
    case _ => grace
  }

  // The handler finds this workspace: by metadata for a checkout, otherwise by
  // the subscription it is linked to.
  predicate Finds(ws: Workspace, p: Payload) {
    match p
    case Checkout(workspaceId, _, _, _) => workspaceId == Some(ws.id)
    case Updated(sub, _, _) => ws.subscription == Some(sub)
    case Deleted(sub) => ws.subscription == Some(sub)
    case PaymentFailed(invoiced) => invoiced.Some? && ws.subscription == invoiced
    case PaymentSucceeded(invoiced) => invoiced.Some? && ws.subscription == invoiced
    case Unhandled => false
  }

  // The row data of one event; an undefined field leaves its column alone.
  function Written(ws: Workspace, p: Payload, now: nat): Workspace {
    match p
    case Checkout(_, customer, linked, plan) =>
      ws.(status := Some(Active), graceUntil := None,
          customer := if customer.Some? then customer else ws.customer,
          subscription := if linked.Some? then linked else ws.subscription,
          plan := if plan.Some? then plan.value else ws.plan)
    case Updated(_, status, plan) =>
      ws.(status := Some(status), graceUntil := GraceFor(status, ws.graceUntil, now),
          plan := if plan.Some? then plan.value else ws.plan)
    case Deleted(_) =>
      ws.(status := Some(Canceled), plan := Free, subscription := None, graceUntil := None)
    case PaymentFailed(_) =>
      ws.(status := Some(PastDue), graceUntil := GraceFor(PastDue, ws.graceUntil, now))
    case PaymentSucceeded(_) =>
      ws.(status := Some(Active), graceUntil := None)
    case Unhandled => ws
  }

  predicate Applies(ws: Workspace, e: Event) {
    Finds(ws, e.payload) && !Stale(e.created, ws.lastEventAt)
  }

  // applyBillingEvent within handleWebhookEvent.
  function Apply(ws: Workspace, e: Event, now: nat): Workspace {
    if !Applies(ws, e) then ws
    else
      var w := Written(ws, e.payload, now);
      if e.created.Some? then w.(lastEventAt := Some(e.created.value * 1000)) else w
  }

  // ---- Deliveries: the claim and the state change commit together ----------------

  datatype Delivery = Delivery(event: Event, now: nat)

  datatype Store = Store(processed: set<nat>, ws: Workspace)

  function Deliver(s: Store, d: Delivery): Store {
    if d.event.id in s.processed then s
    else Store(s.processed + {d.event.id}, Apply(s.ws, d.event, d.now))
  }

  // All deliveries that reached the database, redeliveries included.
  function Settle(ws: Workspace, run: Run<Delivery>): Store {
    match run
    case Start => Store({}, ws)
    case Then(before, d) => Deliver(Settle(ws, before), d)
  }

  function Delivered(run: Run<Delivery>): set<Event> {
    match run
    case Start => {}
    case Then(before, d) => Delivered(before) + {d.event}
  }

  // ---- Convergence ----------------------------------------------------------------

  // Events about this workspace and subscription `s`.
  predicate Concerns(id: nat, s: nat, e: Event) {
    match e.payload
    case Checkout(workspaceId, _, _, _) => workspaceId == Some(id)
    case Updated(sub, _, _) => sub == s
    case Deleted(sub) => sub == s
    case PaymentFailed(invoiced) => invoiced == Some(s)
    case PaymentSucceeded(invoiced) => invoiced == Some(s)
    case Unhandled => false
  }

  // Distinct ids; the events that concern the workspace carry distinct stamps,
  // and its checkouts link no other subscription.
  ghost predicate History(id: nat, s: nat, events: set<Event>) {
    && (forall e, f :: e in events && f in events && e.id == f.id ==> e == f)
    && (forall e :: e in events && Concerns(id, s, e) ==> e.created.Some?)
    && (forall e, f :: e in events && f in events && Concerns(id, s, e) && Concerns(id, s, f)
                       && e.created == f.created ==>
              e == f)
    && (forall e :: e in events && Concerns(id, s, e) && e.payload.Checkout? ==>
              e.payload.linked == None || e.payload.linked == Some(s))
  }

  ghost predicate Newest(id: nat, s: nat, events: set<Event>, n: Event) {
    && n in events && Concerns(id, s, n) && n.created.Some?
    && forall e :: e in events && Concerns(id, s, e) && e.created.Some? ==> e.created.value <= n.created.value
  }

  // The newest event decides alone when it is a checkout that links the
  // subscription, or when no other event deletes it.
  ghost predicate Decides(id: nat, s: nat, events: set<Event>, n: Event) {
    || (n.payload.Checkout? && n.payload.linked == Some(s))
    || forall d :: d in events && Concerns(id, s, d) && d.payload.Deleted? ==> d == n
  }

  datatype Outcome = Outcome(status: Option<Status>, subscription: Option<nat>, lastEventAt: Option<nat>)

  function OutcomeOf(ws: Workspace): Outcome {
    Outcome(ws.status, ws.subscription, ws.lastEventAt)
  }

  // What an event leaves behind when it is the last word.
  function LastWord(s: nat, n: Event): Outcome
    requires n.created.Some?
  {
    var status := match n.payload
      case Updated(_, status, _) => status
      case Deleted(_) => Canceled
      case PaymentFailed(_) => PastDue
      case _ => Active;
    Outcome(Some(status), if n.payload.Deleted? then None else Some(s), Some(n.created.value * 1000))
  }

  ghost predicate LinkedNotAhead(ws: Workspace, s: nat, stamp: nat) {
    ws.subscription == Some(s) && (ws.lastEventAt.Some? ==> ws.lastEventAt.value <= stamp * 1000)
  }

  lemma ProcessedIds(ws: Workspace, run: Run<Delivery>)
    ensures Settle(ws, run).processed == set e | e in Delivered(run) :: e.id
    ensures Settle(ws, run).ws.id == ws.id && Settle(ws, run).ws.ingestKey == ws.ingestKey
  {
  }

  // The newest event is still to come, and will find the workspace.
  predicate Awaiting(w: Workspace, s: nat, n: Event)
    requires n.created.Some?
  {
    && (w.lastEventAt.Some? ==> w.lastEventAt.value <= n.created.value * 1000)
    && (w.subscription == None || w.subscription == Some(s))
    && (!(n.payload.Checkout? && n.payload.linked == Some(s)) ==> w.subscription == Some(s))
  }

  lemma NewestApplies(w: Workspace, s: nat, n: Event, now: nat)
    requires n.created.Some? && Awaiting(w, s, n) && Concerns(w.id, s, n)
    requires n.payload.Checkout? ==> n.payload.linked == None || n.payload.linked == Some(s)
    ensures OutcomeOf(Apply(w, n, now)) == LastWord(s, n)
  {
  }

  // An older event is applied at most, and deletes no link the newest one needs.
  lemma OlderKeepsAwaiting(w: Workspace, s: nat, events: set<Event>, n: Event, e: Event, now: nat)
    requires History(w.id, s, events) && Newest(w.id, s, events, n) && Decides(w.id, s, events, n)
    requires Awaiting(w, s, n) && e in events && e != n
    ensures Awaiting(Apply(w, e, now), s, n)
  {
    assert !Concerns(w.id, s, e) ==> !Finds(w, e.payload);
  }

  // After the newest event every other one is stale, or finds nothing.
  lemma OlderChangesNothing(w: Workspace, s: nat, events: set<Event>, n: Event, e: Event, now: nat)
    requires History(w.id, s, events) && Newest(w.id, s, events, n)
    requires w.lastEventAt == Some(n.created.value * 1000) && (w.subscription == None || w.subscription == Some(s))
    requires e in events && e != n
    ensures Apply(w, e, now) == w
  {
    assert !Concerns(w.id, s, e) ==> !Finds(w, e.payload);
    assert Concerns(w.id, s, e) ==> e.created.value < n.created.value;
  }

  // Before the newest event arrives it is still applicable; after it, nothing changes.
  lemma {:induction false} NewestWins(ws: Workspace, s: nat, events: set<Event>, n: Event, run: Run<Delivery>)
    requires History(ws.id, s, events) && Newest(ws.id, s, events, n) && Decides(ws.id, s, events, n)
    requires LinkedNotAhead(ws, s, n.created.value)
    requires Delivered(run) <= events
    ensures var w := Settle(ws, run).ws;
            if n in Delivered(run) then OutcomeOf(w) == LastWord(s, n) else Awaiting(w, s, n)
  {
    if run.Then? {
      var d, e := run.last, run.last.event;
      NewestWins(ws, s, events, n, run.before);
      ProcessedIds(ws, run.before);
      var w := Settle(ws, run.before).ws;
      if e.id in Settle(ws, run.before).processed {
        assert e in Delivered(run.before);
      } else if e == n {
        NewestApplies(w, s, n, d.now);
      } else if n in Delivered(run.before) {
        OlderChangesNothing(w, s, events, n, e, d.now);
      } else {
        OlderKeepsAwaiting(w, s, events, n, e, d.now);
      }
    }
  }

  // Every delivery order of the history, with any redeliveries, ends in the
  // newest event's state.
  lemma {:induction false} EveryOrderConverges(ws: Workspace, s: nat, events: set<Event>, n: Event, run: Run<Delivery>)
    requires History(ws.id, s, events) && Newest(ws.id, s, events, n) && Decides(ws.id, s, events, n)
    requires LinkedNotAhead(ws, s, n.created.value)
    requires Delivered(run) == events
    ensures OutcomeOf(Settle(ws, run).ws) == LastWord(s, n)
  {
    NewestWins(ws, s, events, n, run);
  }

  // The plan an event writes, when it writes one.
  function PlanNamed(p: Payload): Option<Plan> {
    match p
    case Checkout(_, _, _, plan) => plan
    case Updated(_, _, plan) => plan
    case Deleted(_) => Some(Free)
    case _ => None
  }

  function CustomerNamed(p: Payload): Option<nat> {
    if p.Checkout? then p.customer else None
  }

  // A plan or customer is never guessed: each is the one before, or one that a delivered
  // event named.
  lemma {:induction false} NothingIsGuessed(ws: Workspace, run: Run<Delivery>)
    ensures var w := Settle(ws, run).ws;
            && (w.plan == ws.plan || exists e :: e in Delivered(run) && PlanNamed(e.payload) == Some(w.plan))
            && (w.customer == ws.customer
                || exists e :: e in Delivered(run) && w.customer.Some? && CustomerNamed(e.payload) == w.customer)
  {
    if run.Then? {
      NothingIsGuessed(ws, run.before);
      assert run.last.event in Delivered(run);
    }
  }

  // Every order also ends on the newest event's plan and customer, when that event names
  // them; what only an older event names depends on whether it arrived in time.
  lemma {:induction false} NewestPlanWins(ws: Workspace, s: nat, events: set<Event>, n: Event, run: Run<Delivery>)
    requires History(ws.id, s, events) && Newest(ws.id, s, events, n) && Decides(ws.id, s, events, n)
    requires LinkedNotAhead(ws, s, n.created.value)
    requires Delivered(run) <= events && n in Delivered(run)
    ensures PlanNamed(n.payload).Some? ==> Some(Settle(ws, run).ws.plan) == PlanNamed(n.payload)
    ensures CustomerNamed(n.payload).Some? ==> Settle(ws, run).ws.customer == CustomerNamed(n.payload)
  {
    var e := run.last.event;
    var w := Settle(ws, run.before).ws;
    ProcessedIds(ws, run.before);
    NewestWins(ws, s, events, n, run.before);
    assert e.id in Settle(ws, run.before).processed ==> e in Delivered(run.before);
    if n in Delivered(run.before) {
      NewestPlanWins(ws, s, events, n, run.before);
      if e != n {
        OlderChangesNothing(w, s, events, n, e, run.last.now);
      }
    }
  }

  // Once the newest event has been applied, no later delivery changes the outcome.
  lemma {:induction false} Frozen(ws: Workspace, s: nat, events: set<Event>, n: Event,
      from: Run<Delivery>, run: Run<Delivery>)
    requires History(ws.id, s, events) && Newest(ws.id, s, events, n)
    requires Prefix(from, run) && Delivered(run) <= events && n in Delivered(from)
    requires var w := Settle(ws, from).ws;
             w.lastEventAt == Some(n.created.value * 1000) && (w.subscription == None || w.subscription == Some(s))
    ensures OutcomeOf(Settle(ws, run).ws) == OutcomeOf(Settle(ws, from).ws) && n in Delivered(run)
  {
    if run != from {
      var e := run.last.event;
      Frozen(ws, s, events, n, from, run.before);
      ProcessedIds(ws, run.before);
      var w := Settle(ws, run.before).ws;
      assert e == n ==> e.id in Settle(ws, run.before).processed;
      if e != n {
        OlderChangesNothing(w, s, events, n, e, run.last.now);
      }
    }
  }

  lemma OlderLeavesOtherTime(w: Workspace, s: nat, events: set<Event>, n: Event, e: Event, now: nat)
    requires History(w.id, s, events) && Newest(w.id, s, events, n) && e in events && e != n
    requires w.lastEventAt != Some(n.created.value * 1000) && (w.subscription == None || w.subscription == Some(s))
    ensures var w' := Apply(w, e, now);
            w'.lastEventAt != Some(n.created.value * 1000) && (w'.subscription == None || w'.subscription == Some(s))
  {
    assert !Concerns(w.id, s, e) ==> !Finds(w, e.payload);
  }

  // Once the newest event was taken without being applied, its time never shows.
  lemma {:induction false} Missed(ws: Workspace, s: nat, events: set<Event>, n: Event,
      from: Run<Delivery>, run: Run<Delivery>)
    requires History(ws.id, s, events) && Newest(ws.id, s, events, n)
    requires Prefix(from, run) && Delivered(run) <= events && n in Delivered(from)
    requires var w := Settle(ws, from).ws;
             w.lastEventAt != Some(n.created.value * 1000) && (w.subscription == None || w.subscription == Some(s))
    ensures var w := Settle(ws, run).ws;
            && w.lastEventAt != Some(n.created.value * 1000) && (w.subscription == None || w.subscription == Some(s))
            && n in Delivered(run)
  {
    if run != from {
      var e := run.last.event;
      Missed(ws, s, events, n, from, run.before);
      ProcessedIds(ws, run.before);
      assert e == n ==> e.id in Settle(ws, run.before).processed;
      if e != n {
        OlderLeavesOtherTime(Settle(ws, run.before).ws, s, events, n, e, run.last.now);
      }
    }
  }

  // Any run can be continued with the rest of a history.
  lemma {:induction false} Continue(from: Run<Delivery>, rest: set<Event>) returns (run: Run<Delivery>)
    ensures Prefix(from, run) && Delivered(run) == Delivered(from) + rest
    decreases |rest|
  {
    if rest == {} {
      run := from;
    } else {
      var e :| e in rest;
      var shorter := Continue(from, rest - {e});
      run := Then(shorter, Delivery(e, 0));
    }
  }

  // The newest event first: it is applied, whatever follows.
  lemma {:induction false} NewestFirst(ws: Workspace, s: nat, events: set<Event>, n: Event) returns (a: Run<Delivery>)
    requires History(ws.id, s, events) && Newest(ws.id, s, events, n) && LinkedNotAhead(ws, s, n.created.value)
    ensures Delivered(a) == events && OutcomeOf(Settle(ws, a).ws) == OutcomeOf(Apply(ws, n, 0))
  {
    var first: Run<Delivery> := Then(Start, Delivery(n, 0));
    a := Continue(first, events);
    assert Settle(ws, first).ws == Apply(ws, n, 0);
    Frozen(ws, s, events, n, first, a);
  }

  // The deletion first, then the newest event: the subscription is unlinked by then.
  lemma {:induction false} DeletionFirst(ws: Workspace, s: nat, events: set<Event>, n: Event, d: Event)
    returns (b: Run<Delivery>)
    requires History(ws.id, s, events) && Newest(ws.id, s, events, n) && !Decides(ws.id, s, events, n)
    requires d in events && Concerns(ws.id, s, d) && d.payload.Deleted? && d != n
    requires d.created.Some? && LinkedNotAhead(ws, s, d.created.value)
    ensures Delivered(b) == events
    ensures var w := Settle(ws, b).ws;
            if n.payload.Checkout? then w.subscription == None else w.lastEventAt != Some(n.created.value * 1000)
  {
    assert d.id != n.id;
    var w := Apply(ws, d, 0);
    var deleted: Run<Delivery> := Then(Start, Delivery(d, 0));
    assert deleted.before == Start && Delivered(Start) == {} && Settle(ws, Start) == Store({}, ws);
    assert Settle(ws, deleted) == Store({d.id}, w) && Delivered(deleted) == {d};
    var last := Then(deleted, Delivery(n, 0));
    assert Settle(ws, last).ws == Apply(w, n, 0) && Delivered(last) == {d, n};
    b := Continue(last, events);
    assert Delivered(b) == events;
    assert w.subscription == None && w.lastEventAt == Some(d.created.value * 1000);
    if n.payload.Checkout? {
      Frozen(ws, s, events, n, last, b);
    } else {
      Missed(ws, s, events, n, last, b);
    }
  }

  // When the newest event does not decide, two orders of the same history end apart.
  lemma {:induction false} OrdersDiverge(ws: Workspace, s: nat, events: set<Event>, n: Event)
    returns (a: Run<Delivery>, b: Run<Delivery>)
    requires History(ws.id, s, events) && Newest(ws.id, s, events, n) && !Decides(ws.id, s, events, n)
    requires forall e :: e in events && Concerns(ws.id, s, e) ==>
             e.created.Some? && LinkedNotAhead(ws, s, e.created.value)
    ensures Delivered(a) == events && Delivered(b) == events
    ensures OutcomeOf(Settle(ws, a).ws) != OutcomeOf(Settle(ws, b).ws)
  {
    var d :| d in events && Concerns(ws.id, s, d) && d.payload.Deleted? && d != n;
    a := NewestFirst(ws, s, events, n);
    b := DeletionFirst(ws, s, events, n, d);
    assert n.payload.Checkout? ==> Apply(ws, n, 0).subscription == Some(s);
    assert Apply(ws, n, 0).lastEventAt == Some(n.created.value * 1000);
  }

  ghost predicate OrderIrrelevant(ws: Workspace, events: set<Event>) {
    forall a, b :: Delivered(a) == events && Delivered(b) == events ==>
      OutcomeOf(Settle(ws, a).ws) == OutcomeOf(Settle(ws, b).ws)
  }

  // The delivery order is irrelevant exactly when the newest event decides.
  lemma {:induction false} ConvergesIff(ws: Workspace, s: nat, events: set<Event>, n: Event)
    requires History(ws.id, s, events) && Newest(ws.id, s, events, n)
    requires forall e :: e in events && Concerns(ws.id, s, e) ==>
             e.created.Some? && LinkedNotAhead(ws, s, e.created.value)
    ensures OrderIrrelevant(ws, events) <==> Decides(ws.id, s, events, n)
  {
    if Decides(ws.id, s, events, n) {
      forall a, b | Delivered(a) == events && Delivered(b) == events
        ensures OutcomeOf(Settle(ws, a).ws) == OutcomeOf(Settle(ws, b).ws)
      {
        EveryOrderConverges(ws, s, events, n, a);
        EveryOrderConverges(ws, s, events, n, b);
      }
    } else {
      var a, b := OrdersDiverge(ws, s, events, n);
    }
  }

  // ---- Event time and grace over any run --------------------------------------------

  function AppliedStamps(ws: Workspace, run: Run<Delivery>): set<nat> {
    match run
    case Start => if ws.lastEventAt.Some? then {ws.lastEventAt.value} else {}
    case Then(before, d) =>
      var st := Settle(ws, before);
      AppliedStamps(ws, before) +
      (if d.event.id !in st.processed && Applies(st.ws, d.event) && d.event.created.Some?
       then {d.event.created.value * 1000} else {})
  }

  // The recorded event time is the newest applied, so it never goes back.
  lemma {:induction false} LastEventIsNewestApplied(ws: Workspace, run: Run<Delivery>)
    ensures var last := Settle(ws, run).ws.lastEventAt; var stamps := AppliedStamps(ws, run);
            if stamps == {} then last == None
            else last.Some? && last.value in stamps && forall t :: t in stamps ==> t <= last.value
  {
    if run.Then? {
      LastEventIsNewestApplied(ws, run.before);
    }
  }

  predicate GraceFits(ws: Workspace) {
    && (ws.status == Some(Active) || ws.status == Some(Trialing) ==> ws.graceUntil == None)
    && (ws.status == Some(PastDue) ==> ws.graceUntil.Some?)
    && (ws.status == Some(Canceled) && ws.subscription == None ==> ws.graceUntil == None)
  }

  lemma {:induction false} GraceAlwaysFits(ws: Workspace, run: Run<Delivery>)
    requires GraceFits(ws)
    ensures GraceFits(Settle(ws, run).ws)
  {
    if run.Then? {
      GraceAlwaysFits(ws, run.before);
    }
  }

  // At some point after `from` and up to `run` there was no deadline.
  predicate Cleared(ws: Workspace, from: Run<Delivery>, run: Run<Delivery>) {
    run != from && run.Then? && (Settle(ws, run).ws.graceUntil == None || Cleared(ws, from, run.before))
  }

  // A deadline is never moved: it stays until an event clears it.
  lemma {:induction false} DeadlineStands(ws: Workspace, from: Run<Delivery>, run: Run<Delivery>)
    requires Prefix(from, run) && Settle(ws, from).ws.graceUntil.Some?
    ensures Settle(ws, run).ws.graceUntil == Settle(ws, from).ws.graceUntil || Cleared(ws, from, run)
  {
    if run != from {
      DeadlineStands(ws, from, run.before);
    }
  }

  datatype Entitlement = NoStatus | Paid | Grace | Lapsed

  // billingEntitlement: the plan whose limits apply, and why.
  function EntitlementAt(ws: Workspace, now: nat): (Entitlement, Plan) {
    match ws.status
    case None => (NoStatus, ws.plan)
    case Some(status) =>
      if status.Active? || status.Trialing? then (Paid, ws.plan)
      else if status.PastDue? && ws.graceUntil.Some? && now < ws.graceUntil.value then (Grace, ws.plan)
      else (Lapsed, Free)
  }

  // A paid workspace keeps its plan at any time; any other, but for a running grace
  // period, falls back to the free one.
  lemma {:induction false} PlanIsPaidFor(ws: Workspace, run: Run<Delivery>, now: nat)
    requires GraceFits(ws)
    ensures var w := Settle(ws, run).ws;
            var inGrace := w.status == Some(PastDue) && w.graceUntil.Some? && now < w.graceUntil.value;
            EntitlementAt(w, now).1 ==
              if w.status == None || w.status == Some(Active) || w.status == Some(Trialing) || inGrace
              then w.plan else Free
  {
    GraceAlwaysFits(ws, run);
  }

  // Whatever failed payments follow, a lapsed subscription keeps its plan for
  // exactly seven days from the event that started the grace period.
  lemma {:induction false} GraceLastsSevenDays(ws: Workspace, before: Run<Delivery>, d: Delivery,
      run: Run<Delivery>, now: nat)
    requires var from := Then(before, d);
             && Settle(ws, before).ws.graceUntil == None && Settle(ws, from).ws.graceUntil.Some?
             && Prefix(from, run) && !Cleared(ws, from, run)
    requires Settle(ws, run).ws.status == Some(PastDue)
    ensures EntitlementAt(Settle(ws, run).ws, now) ==
              if now < d.now + GRACE_MS then (Grace, Settle(ws, run).ws.plan) else (Lapsed, Free)
  {
    DeadlineStands(ws, Then(before, d), run);
  }
}
