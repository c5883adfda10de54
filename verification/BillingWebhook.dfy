/**
 The webhook route's loop: each attempt claims the event id and changes the
 workspace in one serializable transaction; a serialization failure is retried
 twice, and the side effects gathered by an attempt run only if it committed.

 Other deliveries, of this event or of others, commit between the attempts.
 */
module BillingWebhook {
  import opened Wrappers
  import opened Billing

  datatype SideEffect = EvictKey(key: nat) | MailOwner(graceUntil: Option<nat>)

  // What the handler pushes to afterCommit, given whether the owner can be mailed.
  function Gathered(ws: Workspace, d: Delivery, mailable: bool): seq<SideEffect> {
    var w := Apply(ws, d.event, d.now);
    if !Applies(ws, d.event) then []
    else
      match d.event.payload
      case Checkout(_, _, _, plan) => if plan.Some? && w.ingestKey.Some? then [EvictKey(w.ingestKey.value)] else []
      case Updated(_, _, plan) => if plan.Some? && w.ingestKey.Some? then [EvictKey(w.ingestKey.value)] else []
      case Deleted(_) => if w.ingestKey.Some? then [EvictKey(w.ingestKey.value)] else []
      case PaymentFailed(_) => if mailable then [MailOwner(w.graceUntil)] else []
      case _ => []
  }

  // A key cached with the old plan is evicted whenever the plan changes, and no other
  // key ever is.
  lemma PlanChangeEvicts(ws: Workspace, d: Delivery, mailable: bool)
    ensures var w, effects := Apply(ws, d.event, d.now), Gathered(ws, d, mailable);
      && (w.plan != ws.plan && ws.ingestKey.Some? ==> EvictKey(ws.ingestKey.value) in effects)
      && (forall key: nat :: EvictKey(key) in effects ==> ws.ingestKey == Some(key) && PlanNamed(d.event.payload).Some?)
  {
  }

  // The event is no older than the last one applied.
  predicate InOrder(ws: Workspace, e: Event) {
    e.created.Some? && ws.lastEventAt.Some? ==> ws.lastEventAt.value <= e.created.value * 1000
  }

  // A failed payment of the workspace's subscription, not out of order.
  predicate PaymentLapses(ws: Workspace, e: Event) {
    ws.subscription.Some? && e.payload == PaymentFailed(ws.subscription) && InOrder(ws, e)
  }

  // It mails the owner once, when there is one to mail, with the deadline then recorded;
  // nothing else mails.
  lemma FailedPaymentMails(ws: Workspace, d: Delivery, mailable: bool)
    ensures var effects, deadline := Gathered(ws, d, mailable), Apply(ws, d.event, d.now).graceUntil;
      if mailable && PaymentLapses(ws, d.event) then deadline.Some? && effects == [MailOwner(deadline)]
      else forall g :: MailOwner(g) !in effects
  {
  }

  // What the database does to one attempt that gets as far as claiming the event.
  datatype Fate =
    | Lands
    | LandsUnreported   // committed, but the answer was lost: an error without P2034
    | Conflicts         // P2034
    | Breaks            // any other error, a P2002 raised after the claim included

  // The deliveries other requests commit before an attempt, and its fate.
  datatype Turn = Turn(others: seq<Delivery>, fate: Fate)

  datatype Answer = Received | Duplicate | Failed

  function Commits(log: Run<Delivery>, id: nat): nat {
    match log
    case Start => 0
    case Then(before, d) => Commits(before, id) + if d.event.id == id then 1 else 0
  }

  predicate Once(log: Run<Delivery>) {
    log.Then? ==> Once(log.before) && Commits(log.before, log.last.event.id) == 0
  }

  // Each event id commits at most once.
  lemma {:induction false} CommittedAtMostOnce(log: Run<Delivery>, id: nat)
    requires Once(log)
    ensures Commits(log, id) <= 1
  {
    if log.Then? {
      CommittedAtMostOnce(log.before, id);
    }
  }

  lemma {:induction false} ProcessedMeansCommitted(ws: Workspace, log: Run<Delivery>, id: nat)
    ensures id in Settle(ws, log).processed <==> Commits(log, id) > 0
  {
    if log.Then? {
      ProcessedMeansCommitted(ws, log.before, id);
    }
  }

  lemma {:induction false} PrefixExtends(a: Run<Delivery>, b: Run<Delivery>, c: Run<Delivery>)
    requires Prefix(a, b) && Prefix(b, c)
    ensures Prefix(a, c)
  {
    if b != c {
      PrefixExtends(a, b, c.before);
    }
  }

  class WebhookDb {
    const initial: Workspace
    var store: Store
    // The committed transactions, in commit order.
    var log: Run<Delivery>

    ghost predicate Valid()
      reads this
    {
      store == Settle(initial, log) && Once(log)
    }

    constructor (ws: Workspace)
      ensures Valid() && log == Start && initial == ws
    {
      initial, store, log := ws, Store({}, ws), Start;
    }

    // The transaction of one attempt that commits; false is P2002 on the claim.
    method Commit(d: Delivery) returns (claimed: bool)
      requires Valid()
      modifies this
      ensures Valid()
      ensures claimed <==> Commits(old(log), d.event.id) == 0
      ensures log == if claimed then Then(old(log), d) else old(log)
      ensures d.event.id in store.processed
    {
      ProcessedMeansCommitted(initial, log, d.event.id);
      claimed := d.event.id !in store.processed;
      if claimed {
        store := Deliver(store, d);
        log := Then(log, d);
      }
    }

    method Others(ds: seq<Delivery>)
      requires Valid()
      modifies this
      ensures Valid() && Prefix(old(log), log)
      ensures ds == [] ==> log == old(log)
    {
      for i := 0 to |ds|
        invariant Valid() && Prefix(old(log), log)
        invariant i == 0 ==> log == old(log)
      {
        var _ := Commit(ds[i]);
      }
    }

    // A success answer means the event is committed; the side effects run are
    // exactly those of the committing attempt, which `at` locates in the log.
    method Webhook(d: Delivery, mailable: bool, turns: seq<Turn>)
      returns (answer: Answer, ran: seq<SideEffect>, ghost at: Run<Delivery>)
      requires Valid() && |turns| == 3
      modifies this
      ensures Valid() && Prefix(old(log), log)
      ensures !answer.Failed? ==> Commits(log, d.event.id) == 1
      ensures answer.Received? ==>
                && Prefix(old(log), at) && Prefix(Then(at, d), log)
                && ran == Gathered(Settle(initial, at).ws, d, mailable)
      ensures answer.Received? && mailable && PaymentLapses(Settle(initial, at).ws, d.event) ==>
                ran == [MailOwner(Settle(initial, Then(at, d)).ws.graceUntil)]
      ensures answer.Received? && !(mailable && PaymentLapses(Settle(initial, at).ws, d.event)) ==>
                forall g :: MailOwner(g) !in ran
      ensures !answer.Received? ==> ran == []
      ensures answer.Duplicate? && Commits(old(log), d.event.id) == 0 ==>
                exists i :: 0 <= i < 3 && turns[i].others != []
      // The loop rides out two conflicts and no more.
      ensures (exists k :: 0 <= k < 3 && turns[k].fate.Lands?
                     && forall i :: 0 <= i < k ==> turns[i].fate.Conflicts?) ==> !answer.Failed?
      ensures (forall i :: 0 <= i < 3 ==> turns[i].fate.Conflicts? && turns[i].others == [])
                && Commits(old(log), d.event.id) == 0 ==>
                answer.Failed? && log == old(log)
    {
      at := log;
      var attempt := 0;
      while attempt < 3
        invariant 0 <= attempt <= 2
        invariant Valid() && Prefix(old(log), log)
        invariant forall i :: 0 <= i < attempt ==> turns[i].fate.Conflicts?
        invariant log == old(log) || exists i :: 0 <= i < attempt && turns[i].others != []
        decreases 3 - attempt
      {
        var afterCommit: seq<SideEffect> := [];
        ghost var before := log;
        Others(turns[attempt].others);
        PrefixExtends(old(log), before, log);
        var fate := turns[attempt].fate;
        var duplicate := d.event.id in store.processed;
        ProcessedMeansCommitted(initial, log, d.event.id);
        CommittedAtMostOnce(log, d.event.id);
        if duplicate && (fate.Lands? || fate.LandsUnreported?) {
          // P2002 before `claimCreated` is set
          assert turns[attempt].others == [] ==> log == before;
          return Duplicate, [], log;
        }
        if !duplicate {
          // The handler ran; whether its transaction commits is decided after.
          afterCommit := afterCommit + Gathered(store.ws, d, mailable);
        }
        if fate.Lands? || fate.LandsUnreported? {
          at := log;
          var _ := Commit(d);
          PrefixExtends(old(log), at, log);
        }
        if fate.Conflicts? && attempt < 2 {
          attempt := attempt + 1;
          continue;
        }
        if !fate.Lands? {
          return Failed, [], log;
        }
        FailedPaymentMails(Settle(initial, at).ws, d, mailable);
        ran := [];
        for i := 0 to |afterCommit|
          invariant ran == afterCommit[..i]
        {
          // A failing action is logged; the loop goes on with the next.
          ran := ran + [afterCommit[i]];
        }
        return Received, ran, at;
      }
      return Failed, [], log;
    }
  }

  // End to end: when every event of a history has committed, in whatever order
  // and however often each was delivered, the workspace is in the newest event's state.
  lemma {:induction false} CommittedHistoryConverges(ws: Workspace, s: nat, events: set<Event>,
      n: Event, log: Run<Delivery>)
    requires History(ws.id, s, events) && Newest(ws.id, s, events, n) && Decides(ws.id, s, events, n)
    requires LinkedNotAhead(ws, s, n.created.value)
    requires Once(log) && Delivered(log) <= events && forall e :: e in events ==> Commits(log, e.id) == 1
    ensures OutcomeOf(Settle(ws, log).ws) == LastWord(s, n)
  {
    forall e | e in events
      ensures e in Delivered(log)
    {
      ProcessedMeansCommitted(ws, log, e.id);
      ProcessedIds(ws, log);
      var f :| f in Delivered(log) && f.id == e.id;
    }
    EveryOrderConverges(ws, s, events, n, log);
  }
}
