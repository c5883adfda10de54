/**
 The two routes that turn won work into a delivery job: one starts from an
 accepted quote, the other from a won opportunity. Each reads before its
 transaction, reads again inside it, and then makes guarded writes.

 The reads and the writes are separate steps, so both routes, run any number of
 times at once, may act on what they read too early; the guards and the unique
 index on Job.quoteId are judged when the transaction commits.
 */
module JobCreation {
  import opened Wrappers

  datatype Opportunity = Opportunity(won: bool, site: Option<nat>)

  datatype Quote = Quote(opportunity: Option<nat>, accepted: bool)

  datatype JobStatus = ACTIVE | COMPLETE | CANCELLED

  datatype Job = Job(site: nat, quote: Option<nat>, status: JobStatus)

  datatype Shift = Shift(site: nat, job: Option<nat>, hours: nat)

  // What a request will do, fixed by its reads.
  datatype Plan =
    | AttachTo(job: nat, quote: nat)
    | AtSite(site: nat, quote: nat, first: bool, link: Option<nat>)
    | AtNewSite(accepted: Option<nat>, link: Option<nat>)

  datatype Pending =
    | Opened(quote: nat, link: Option<nat>, linkSite: Option<nat>, chosen: Option<nat>)
    | OpenedOpportunity(opportunity: nat)
    | Planned(plan: Plan)
    | Attributed(site: nat, job: Option<nat>)  // a shift about to be logged

  datatype State = State(
    opportunities: map<nat, Opportunity>,
    quotes: map<nat, Quote>,
    sites: set<nat>,
    jobs: map<nat, Job>,
    shifts: map<nat, Shift>,
    pending: map<nat, Pending>)

  datatype Label =
    | OpenQuote(q: nat, quote: nat, chosen: Option<nat>)
    | OpenOpportunity(q: nat, opportunity: nat)
    | Read(q: nat, found: Option<nat>)         // the row a findFirst returned, if any
    | Commit(q: nat, job: nat, site: nat)      // the ids new rows get
    | Abort(q: nat)
    | Attribute(q: nat, site: nat, given: Option<nat>, result: Option<nat>)
    | LogShift(q: nat, id: nat, hours: nat)
    | AddSite(site: nat)
    | Move(job: nat, status: JobStatus)        // no route cancels yet; the reads allow for it
    | Decide(quote: nat, decided: Quote)
    | Discover(opportunity: nat, row: Opportunity)

  // Job.quoteId is unique.
  predicate QuoteTaken(jobs: map<nat, Job>, quote: nat) {
    exists j :: j in jobs && jobs[j].quote == Some(quote)
  }

  predicate OpenAt(jobs: map<nat, Job>, j: nat, site: nat) {
    j in jobs && jobs[j].site == site && jobs[j].status != CANCELLED
  }

  predicate LiveAt(s: State, j: nat, site: nat) {
    OpenAt(s.jobs, j, site)
  }

  predicate HasLiveJob(s: State, site: nat) {
    exists j :: j in s.jobs && OpenAt(s.jobs, j, site)
  }

  predicate Quoteless(s: State, j: nat, site: nat) {
    j in s.jobs && s.jobs[j].site == site && s.jobs[j].quote.None? && s.jobs[j].status != CANCELLED
  }

  predicate Unlinked(opportunities: map<nat, Opportunity>, o: nat) {
    o in opportunities && opportunities[o].site.None?
  }

  function SiteFor(p: Pending): Option<nat>
    requires p.Opened?
  {
    if p.chosen.Some? then p.chosen else p.linkSite
  }

  function QuoteOf(plan: Plan): Option<nat> {
    match plan
    case AttachTo(_, quote) => Some(quote)
    case AtSite(_, quote, _, _) => Some(quote)
    case AtNewSite(accepted, _) => accepted
  }

  predicate ReadFits(s: State, p: Pending, found: Option<nat>) {
    match p
    case Opened(_, _, linkSite, _) =>
      var site := SiteFor(p);
      if site.Some? && linkSite == site && exists j :: j in s.jobs && Quoteless(s, j, site.value)
      then found.Some? && Quoteless(s, found.value, site.value)
      else found.None?
    case OpenedOpportunity(o) =>
      if exists k :: k in s.quotes && s.quotes[k] == Quote(Some(o), true) && !QuoteTaken(s.jobs, k)
      then found.Some? && found.value in s.quotes
           && s.quotes[found.value] == Quote(Some(o), true) && !QuoteTaken(s.jobs, found.value)
      else found.None?
    case Planned(_) => false
    case Attributed(_, _) => false
  }

  predicate ActiveAt(jobs: map<nat, Job>, j: nat, site: nat) {
    OpenAt(jobs, j, site) && jobs[j].status == ACTIVE
  }

  // resolveShiftJobId: the job given, if it is at the site and not cancelled; else the
  // site's one ACTIVE job; with none ACTIVE, its one job, or none at a site without jobs.
  // Anything else is refused.
  predicate Attributes(jobs: map<nat, Job>, site: nat, given: Option<nat>, job: Option<nat>) {
    if given.Some? then job == given && OpenAt(jobs, given.value, site)
    else if job.None? then forall j :: j in jobs ==> !OpenAt(jobs, j, site)
    else if ActiveAt(jobs, job.value, site) then forall j :: j in jobs && ActiveAt(jobs, j, site) ==> j == job.value
    else OpenAt(jobs, job.value, site) && forall j :: j in jobs && OpenAt(jobs, j, site) ==> j == job.value
  }

  predicate Enabled(s: State, l: Label) {
    match l
    case OpenQuote(q, quote, chosen) =>
      && q !in s.pending && quote in s.quotes && s.quotes[quote].accepted && !QuoteTaken(s.jobs, quote)
      && (s.quotes[quote].opportunity.Some? ==> s.quotes[quote].opportunity.value in s.opportunities)
      && (chosen.Some? ==> chosen.value in s.sites)
    case OpenOpportunity(q, o) => q !in s.pending && Unlinked(s.opportunities, o) && s.opportunities[o].won
    case Read(q, found) => q in s.pending && ReadFits(s, s.pending[q], found)
    case Commit(q, job, site) => q in s.pending && s.pending[q].Planned? && job !in s.jobs && site !in s.sites
    case Abort(q) => q in s.pending
    case Attribute(q, site, given, result) =>
      q !in s.pending && site in s.sites && Attributes(s.jobs, site, given, result)
    case LogShift(q, id, _) => q in s.pending && s.pending[q].Attributed? && id !in s.shifts
    case AddSite(site) => site !in s.sites
    case Move(job, _) => job in s.jobs && s.jobs[job].status != CANCELLED
    case Decide(quote, row) => quote in s.quotes ==> s.quotes[quote].opportunity == row.opportunity
    case Discover(o, row) => o !in s.opportunities && row.site.None?
  }

  function PlanOf(s: State, p: Pending, found: Option<nat>): Plan
    requires ReadFits(s, p, found)
  {
    match p
    case Opened(quote, link, linkSite, _) =>
      var site := SiteFor(p);
      if site.None? then AtNewSite(Some(quote), link)
      else if found.Some? then AttachTo(found.value, quote)
      else AtSite(site.value, quote, !HasLiveJob(s, site.value), if linkSite.None? then link else None)
    case OpenedOpportunity(o) => AtNewSite(found, Some(o))
  }

  // A guard that fails, or the unique index, rolls the transaction back.
  predicate Lands(s: State, plan: Plan) {
    match plan
    case AttachTo(job, quote) => job in s.jobs && s.jobs[job].quote.None? && !QuoteTaken(s.jobs, quote)
    case AtSite(_, quote, _, _) => !QuoteTaken(s.jobs, quote)
    case AtNewSite(accepted, link) =>
      && (link.Some? ==> Unlinked(s.opportunities, link.value))
      && (accepted.Some? ==> !QuoteTaken(s.jobs, accepted.value))
  }

  function Linked(opportunities: map<nat, Opportunity>, link: Option<nat>, site: nat): map<nat, Opportunity> {
    if link.Some? && Unlinked(opportunities, link.value)
    then opportunities[link.value := opportunities[link.value].(site := Some(site))]
    else opportunities
  }

  // The site's unattached shifts move onto the job.
  function Taken(shifts: map<nat, Shift>, site: nat, job: nat): map<nat, Shift> {
    map id | id in shifts ::
      if shifts[id].site == site && shifts[id].job.None? then shifts[id].(job := Some(job)) else shifts[id]
  }

  // The site a plan's writes are about.
  function SiteOf(s: State, plan: Plan, site: nat): nat {
    match plan
    case AttachTo(j, _) => if j in s.jobs then s.jobs[j].site else site
    case AtSite(at, _, _, _) => at
    case AtNewSite(_, _) => site
  }

  function CommitOpportunities(s: State, plan: Plan, site: nat): map<nat, Opportunity> {
    if plan.AttachTo? then s.opportunities else Linked(s.opportunities, plan.link, SiteOf(s, plan, site))
  }

  function CommitJobs(s: State, plan: Plan, job: nat, site: nat): map<nat, Job>
    requires Lands(s, plan)
  {
    match plan
    case AttachTo(j, quote) => s.jobs[j := s.jobs[j].(quote := Some(quote))]
    case AtSite(at, quote, _, _) => s.jobs[job := Job(at, Some(quote), ACTIVE)]
    case AtNewSite(accepted, _) => s.jobs[job := Job(site, accepted, ACTIVE)]
  }

  function CommitShifts(s: State, plan: Plan, job: nat): map<nat, Shift> {
    if plan.AtSite? && plan.first then Taken(s.shifts, plan.site, job) else s.shifts
  }

  function DoCommit(s: State, q: nat, job: nat, site: nat): State
    requires Enabled(s, Commit(q, job, site))
  {
    var plan := s.pending[q].plan;
    if !Lands(s, plan) then s.(pending := s.pending - {q})
    else
      s.(opportunities := CommitOpportunities(s, plan, site),
         sites := if plan.AtNewSite? then s.sites + {site} else s.sites,
         jobs := CommitJobs(s, plan, job, site),
         shifts := CommitShifts(s, plan, job),
         pending := s.pending - {q})
  }

  function Do(s: State, l: Label): State
    requires Enabled(s, l)
  {
    match l
    case OpenQuote(q, quote, chosen) =>
      var o := s.quotes[quote].opportunity;
      s.(pending := s.pending[q := Opened(quote, o, if o.Some? then s.opportunities[o.value].site else None, chosen)])
    case OpenOpportunity(q, o) => s.(pending := s.pending[q := OpenedOpportunity(o)])
    case Read(q, found) => s.(pending := s.pending[q := Planned(PlanOf(s, s.pending[q], found))])
    case Commit(q, job, site) => DoCommit(s, q, job, site)
    case Abort(q) => s.(pending := s.pending - {q})
    case Attribute(q, site, _, result) => s.(pending := s.pending[q := Attributed(site, result)])
    case LogShift(q, id, hours) =>
      s.(shifts := s.shifts[id := Shift(s.pending[q].site, s.pending[q].job, hours)], pending := s.pending - {q})
    case AddSite(site) => s.(sites := s.sites + {site})
    case Move(job, status) => s.(jobs := s.jobs[job := s.jobs[job].(status := status)])
    case Decide(quote, row) => s.(quotes := s.quotes[quote := row])
    case Discover(o, row) => s.(opportunities := s.opportunities[o := row])
  }

  const INIT := State(map[], map[], {}, map[], map[], map[])

  function Exec(run: Run<Label>): Option<State> {
    match run
    case Start => Some(INIT)
    case Then(before, l) =>
      var s := Exec(before);
      if s.Some? && Enabled(s.value, l) then Some(Do(s.value, l)) else None
  }

  // ---- The tables hold what was last written ----------------------------------------------

  // A job starts out ACTIVE and is moved by nothing else.
  function LastStatus(run: Run<Label>, job: nat): JobStatus {
    match run
    case Start => ACTIVE
    case Then(before, l) => if l.Move? && l.job == job then l.status else LastStatus(before, job)
  }

  // An opportunity as it was discovered.
  function Discovered(run: Run<Label>, o: nat): Option<Opportunity> {
    match run
    case Start => None
    case Then(before, l) => if l.Discover? && l.opportunity == o then Some(l.row) else Discovered(before, o)
  }

  predicate EndsRequest(l: Label) {
    l.Commit? || l.Abort? || l.LogShift?
  }

  predicate StatusIs(jobs: map<nat, Job>, job: nat, status: JobStatus) {
    status == if job in jobs then jobs[job].status else ACTIVE
  }

  lemma {:induction false} StatusStep(s: State, l: Label, job: nat, status: JobStatus)
    requires Enabled(s, l) && StatusIs(s.jobs, job, status)
    ensures StatusIs(Do(s, l).jobs, job, if l.Move? && l.job == job then l.status else status)
  {
  }

  lemma {:induction false} JobsHaveLastStatus(run: Run<Label>, job: nat)
    requires Exec(run).Some?
    ensures StatusIs(Exec(run).value.jobs, job, LastStatus(run, job))
  {
    if run.Then? {
      JobsHaveLastStatus(run.before, job);
      StatusStep(Exec(run.before).value, run.last, job, LastStatus(run.before, job));
    }
  }

  predicate DiscoveredAs(t: map<nat, Opportunity>, o: nat, row: Option<Opportunity>) {
    (o in t <==> row.Some?) && (o in t ==> t[o].won == row.value.won)
  }

  lemma {:induction false} DiscoveredStep(s: State, l: Label, o: nat, row: Option<Opportunity>)
    requires Enabled(s, l) && DiscoveredAs(s.opportunities, o, row)
    ensures DiscoveredAs(Do(s, l).opportunities, o, if l.Discover? && l.opportunity == o then Some(l.row) else row)
    ensures EndsRequest(l) ==> l.q !in Do(s, l).pending
  {
  }

  lemma {:induction false} OpportunitiesAreDiscovered(run: Run<Label>, o: nat)
    requires Exec(run).Some?
    ensures DiscoveredAs(Exec(run).value.opportunities, o, Discovered(run, o))
  {
    if run.Then? {
      OpportunitiesAreDiscovered(run.before, o);
      DiscoveredStep(Exec(run.before).value, run.last, o, Discovered(run.before, o));
    }
  }

  // ---- One job per quote ---------------------------------------------------------------

  ghost predicate OneJobPerQuote(s: State) {
    forall i, j :: i in s.jobs && j in s.jobs && s.jobs[i].quote.Some? && s.jobs[i].quote == s.jobs[j].quote ==> i == j
  }

  lemma CommitKeepsOneJob(s: State, q: nat, job: nat, site: nat)
    requires OneJobPerQuote(s) && Enabled(s, Commit(q, job, site))
    ensures OneJobPerQuote(DoCommit(s, q, job, site))
  {
    var s' := DoCommit(s, q, job, site);
    forall i, j | i in s'.jobs && j in s'.jobs && s'.jobs[i].quote.Some? && s'.jobs[i].quote == s'.jobs[j].quote
      ensures i == j
    {
      assert i in s.jobs && s.jobs[i] == s'.jobs[i] ==> QuoteTaken(s.jobs, s'.jobs[i].quote.value);
      assert j in s.jobs && s.jobs[j] == s'.jobs[j] ==> QuoteTaken(s.jobs, s'.jobs[j].quote.value);
    }
  }

  lemma {:induction false} QuoteHasOneJob(run: Run<Label>)
    requires Exec(run).Some?
    ensures OneJobPerQuote(Exec(run).value)
  {
    if run.Then? {
      QuoteHasOneJob(run.before);
      if run.last.Commit? {
        CommitKeepsOneJob(Exec(run.before).value, run.last.q, run.last.job, run.last.site);
      }
    }
  }

  // ---- What is written once stays ----------------------------------------------------------

  predicate SameOpportunity(o: Opportunity, o': Opportunity) {
    o.site.Some? ==> o'.site == o.site
  }

  predicate SameJob(j: Job, j': Job) {
    j'.site == j.site && (j.quote.Some? ==> j'.quote == j.quote) && (j.status == CANCELLED ==> j'.status == CANCELLED)
  }

  predicate SameShift(i: Shift, i': Shift) {
    i'.site == i.site && i'.hours == i.hours && (i.job.Some? ==> i'.job == i.job)
  }

  ghost predicate KeepsOpportunities(t: map<nat, Opportunity>, t': map<nat, Opportunity>) {
    forall o :: o in t ==> o in t' && SameOpportunity(t[o], t'[o])
  }

  ghost predicate KeepsQuotes(t: map<nat, Quote>, t': map<nat, Quote>) {
    forall q :: q in t ==> q in t' && t'[q].opportunity == t[q].opportunity
  }

  ghost predicate KeepsJobs(t: map<nat, Job>, t': map<nat, Job>) {
    forall j :: j in t ==> j in t' && SameJob(t[j], t'[j])
  }

  ghost predicate KeepsShifts(t: map<nat, Shift>, t': map<nat, Shift>) {
    forall i :: i in t ==> i in t' && SameShift(t[i], t'[i])
  }

  // Later rows keep every link that was made: an opportunity's site, a quote's
  // opportunity, a job's site and quote, a shift's job, site and hours.
  ghost predicate Keeps(s: State, s': State) {
    && KeepsOpportunities(s.opportunities, s'.opportunities)
    && KeepsQuotes(s.quotes, s'.quotes)
    && KeepsJobs(s.jobs, s'.jobs)
    && KeepsShifts(s.shifts, s'.shifts)
  }

  lemma LinkingKeeps(s: State, plan: Plan, site: nat)
    ensures KeepsOpportunities(s.opportunities, CommitOpportunities(s, plan, site))
  {
  }

  lemma NewJobKeeps(s: State, plan: Plan, job: nat, site: nat)
    requires Lands(s, plan) && job !in s.jobs
    ensures KeepsJobs(s.jobs, CommitJobs(s, plan, job, site))
  {
  }

  lemma TakingKeeps(s: State, plan: Plan, job: nat)
    ensures KeepsShifts(s.shifts, CommitShifts(s, plan, job))
  {
  }

  lemma KeepsStep(s: State, l: Label)
    requires Enabled(s, l)
    ensures Keeps(s, Do(s, l))
  {
    if l.Commit? {
      var plan := s.pending[l.q].plan;
      if Lands(s, plan) {
        LinkingKeeps(s, plan, l.site);
        NewJobKeeps(s, plan, l.job, l.site);
        TakingKeeps(s, plan, l.job);
      }
    }
  }

  lemma KeepsChains(s: State, s': State, s'': State)
    requires Keeps(s, s') && Keeps(s', s'')
    ensures Keeps(s, s'')
  {
  }

  lemma {:induction false} LinksAreWrittenOnce(run: Run<Label>, longer: Run<Label>)
    requires Prefix(run, longer) && Exec(run).Some? && Exec(longer).Some?
    ensures Keeps(Exec(run).value, Exec(longer).value)
  {
    if run != longer {
      var s := Exec(longer.before);
      assert s.Some?;
      LinksAreWrittenOnce(run, longer.before);
      KeepsStep(s.value, longer.last);
      KeepsChains(Exec(run).value, s.value, Exec(longer).value);
    }
  }

  // ---- Hours ---------------------------------------------------------------------------------

  ghost function Sum(hours: map<nat, nat>): nat
    decreases |hours|
  {
    if hours == map[] then 0
    else
      var id :| id in hours;
      hours[id] + Sum(hours - {id})
  }

  lemma {:induction false} SumTakesOut(hours: map<nat, nat>, id: nat)
    requires id in hours
    ensures Sum(hours) == hours[id] + Sum(hours - {id})
    decreases |hours|
  {
    var first :| first in hours && Sum(hours) == hours[first] + Sum(hours - {first});
    if first != id {
      SumTakesOut(hours - {first}, id);
      SumTakesOut(hours - {id}, first);
      assert hours - {first} - {id} == hours - {id} - {first};
    }
  }

  function Hours(shifts: map<nat, Shift>): map<nat, nat> {
    map id | id in shifts :: shifts[id].hours
  }

  // The hours clocked in a run.
  function Clocked(run: Run<Label>): nat {
    match run
    case Start => 0
    case Then(before, l) => Clocked(before) + if l.LogShift? then l.hours else 0
  }

  lemma TakingKeepsHours(s: State, plan: Plan, job: nat)
    ensures Hours(CommitShifts(s, plan, job)) == Hours(s.shifts)
  {
  }

  lemma HoursStep(s: State, l: Label)
    requires Enabled(s, l)
    ensures Sum(Hours(Do(s, l).shifts)) == Sum(Hours(s.shifts)) + if l.LogShift? then l.hours else 0
  {
    var s' := Do(s, l);
    if l.LogShift? {
      SumTakesOut(Hours(s'.shifts), l.id);
      assert Hours(s'.shifts) - {l.id} == Hours(s.shifts);
    } else if l.Commit? {
      TakingKeepsHours(s, s.pending[l.q].plan, l.job);
    } else {
      assert s'.shifts == s.shifts;
    }
  }

  lemma {:induction false} HoursAreConserved(run: Run<Label>)
    requires Exec(run).Some?
    ensures Sum(Hours(Exec(run).value.shifts)) == Clocked(run)
  {
    if run.Then? {
      HoursAreConserved(run.before);
      HoursStep(Exec(run.before).value, run.last);
    }
  }

  // ---- What the links point at ----------------------------------------------------------------

  predicate HasJob(s: State, site: nat) {
    exists j :: j in s.jobs && s.jobs[j].site == site
  }

  predicate ShiftFits(s: State, shift: Shift) {
    shift.job.Some? ==> shift.job.value in s.jobs && s.jobs[shift.job.value].site == shift.site
  }

  predicate HasSite(s: State, o: nat) {
    o in s.opportunities && s.opportunities[o].site.Some?
  }

  // The opportunity a quote came from will have a site once the plan lands.
  predicate Links(s: State, quote: nat, link: Option<nat>) {
    quote in s.quotes && (s.quotes[quote].opportunity.Some? ==> var o := s.quotes[quote].opportunity.value;
      o in s.opportunities && (link == Some(o) || HasSite(s, o)))
  }

  predicate PlanFits(s: State, plan: Plan) {
    match plan
    case AttachTo(_, quote) => Links(s, quote, None)
    case AtSite(_, quote, _, link) => Links(s, quote, link)
    case AtNewSite(accepted, link) => accepted.Some? ==> Links(s, accepted.value, link)
  }

  predicate PendingFits(s: State, p: Pending) {
    match p
    case Opened(quote, link, linkSite, _) =>
      && quote in s.quotes && s.quotes[quote].opportunity == link
      && (link.Some? ==> link.value in s.opportunities)
      && (linkSite.Some? ==> link.Some? && s.opportunities[link.value].site == linkSite)
    case OpenedOpportunity(o) => o in s.opportunities
    case Planned(plan) => PlanFits(s, plan)
    case Attributed(site, job) => job.Some? ==> job.value in s.jobs && s.jobs[job.value].site == site
  }

  ghost predicate LinksFit(s: State) {
    && (forall i :: i in s.shifts ==> ShiftFits(s, s.shifts[i]))
    && (forall o :: o in s.opportunities && s.opportunities[o].site.Some? ==> HasJob(s, s.opportunities[o].site.value))
    && (forall q :: q in s.pending ==> PendingFits(s, s.pending[q]))
    && (forall j :: j in s.jobs && s.jobs[j].quote.Some? ==> Links(s, s.jobs[j].quote.value, None))
  }

  lemma FitsStays(s: State, s': State, p: Pending)
    requires Keeps(s, s') && PendingFits(s, p)
    ensures PendingFits(s', p)
  {
  }

  lemma ReadFitsPlan(s: State, p: Pending, found: Option<nat>)
    requires PendingFits(s, p) && ReadFits(s, p, found)
    ensures PlanFits(s, PlanOf(s, p, found))
  {
  }

  lemma HasJobStays(s: State, s': State, site: nat)
    requires Keeps(s, s')
    ensures HasJob(s, site) ==> HasJob(s', site)
  {
  }

  lemma ShiftsFitStep(s: State, l: Label)
    requires LinksFit(s) && Enabled(s, l)
    ensures forall i :: i in Do(s, l).shifts ==> ShiftFits(Do(s, l), Do(s, l).shifts[i])
  {
    var s' := Do(s, l);
    KeepsStep(s, l);
    forall i | i in s'.shifts ensures ShiftFits(s', s'.shifts[i]) {
      if l.LogShift? && i == l.id {
        assert PendingFits(s, s.pending[l.q]);
      } else {
        assert ShiftFits(s, s.shifts[i]);
      }
    }
  }

  lemma LinkedHaveJobsStep(s: State, l: Label)
    requires LinksFit(s) && Enabled(s, l)
    ensures var s' := Do(s, l);
      forall o :: o in s'.opportunities && s'.opportunities[o].site.Some? ==> HasJob(s', s'.opportunities[o].site.value)
  {
    var s' := Do(s, l);
    KeepsStep(s, l);
    forall o | o in s'.opportunities && s'.opportunities[o].site.Some?
      ensures HasJob(s', s'.opportunities[o].site.value)
    {
      HasJobStays(s, s', s'.opportunities[o].site.value);
      if l.Commit? && l.job in s'.jobs && s'.jobs[l.job].site == s'.opportunities[o].site.value {
        assert HasJob(s', s'.jobs[l.job].site);
      }
    }
  }

  lemma PendingFitStep(s: State, l: Label)
    requires LinksFit(s) && Enabled(s, l)
    ensures forall q :: q in Do(s, l).pending ==> PendingFits(Do(s, l), Do(s, l).pending[q])
  {
    var s' := Do(s, l);
    KeepsStep(s, l);
    forall k | k in s'.pending ensures PendingFits(s', s'.pending[k]) {
      if k in s.pending && s.pending[k] == s'.pending[k] {
        FitsStays(s, s', s.pending[k]);
      } else if l.Read? {
        ReadFitsPlan(s, s.pending[k], l.found);
        FitsStays(s, s', s'.pending[k]);
      }
    }
  }

  // A plan that lands leaves its quote's opportunity with a site.
  lemma PlannedQuoteLinks(s: State, q: nat, job: nat, site: nat)
    requires Enabled(s, Commit(q, job, site)) && PendingFits(s, s.pending[q]) && Lands(s, s.pending[q].plan)
    requires QuoteOf(s.pending[q].plan).Some?
    ensures Links(DoCommit(s, q, job, site), QuoteOf(s.pending[q].plan).value, None)
  {
  }

  lemma QuotedWorkStep(s: State, l: Label)
    requires LinksFit(s) && Enabled(s, l)
    ensures var s' := Do(s, l);
      forall j :: j in s'.jobs && s'.jobs[j].quote.Some? ==> Links(s', s'.jobs[j].quote.value, None)
  {
    var s' := Do(s, l);
    KeepsStep(s, l);
    forall j | j in s'.jobs && s'.jobs[j].quote.Some? ensures Links(s', s'.jobs[j].quote.value, None) {
      if j in s.jobs && s.jobs[j].quote.Some? {
        assert Links(s, s.jobs[j].quote.value, None);
      } else {
        assert PendingFits(s, s.pending[l.q]);
        PlannedQuoteLinks(s, l.q, l.job, l.site);
      }
    }
  }

  lemma LinksFitStep(s: State, l: Label)
    requires LinksFit(s) && Enabled(s, l)
    ensures LinksFit(Do(s, l))
  {
    ShiftsFitStep(s, l);
    LinkedHaveJobsStep(s, l);
    PendingFitStep(s, l);
    QuotedWorkStep(s, l);
  }

  // A shift's job is at the shift's site, a linked site has a job, and work from a
  // quoted opportunity leaves that opportunity linked.
  lemma {:induction false} RunKeepsLinksFit(run: Run<Label>)
    requires Exec(run).Some?
    ensures LinksFit(Exec(run).value)
  {
    if run.Then? {
      RunKeepsLinksFit(run.before);
      LinksFitStep(Exec(run.before).value, run.last);
    }
  }

  // A transaction that lands gives its quote, which had no job, one at the site of the
  // plan, and an opportunity it links, if that has no site yet, the same site; a new site
  // lands only with an opportunity that has none. One that does not land changes no row.
  lemma LandedCommitDelivers(s: State, q: nat, job: nat, site: nat)
    requires Enabled(s, Commit(q, job, site))
    ensures var plan, s' := s.pending[q].plan, DoCommit(s, q, job, site);
      if Lands(s, plan) then
        var at := SiteOf(s, plan, site);
        && (QuoteOf(plan).Some? ==> !QuoteTaken(s.jobs, QuoteOf(plan).value))
        && (exists j :: j in s'.jobs && s'.jobs[j].quote == QuoteOf(plan) && s'.jobs[j].site == at)
        && (!plan.AttachTo? && plan.link.Some? && Unlinked(s.opportunities, plan.link.value) ==>
              s'.opportunities[plan.link.value].site == Some(at))
        && (plan.AtNewSite? && plan.link.Some? ==> Unlinked(s.opportunities, plan.link.value))
      else
        s' == s.(pending := s.pending - {q})
  {
    var plan, s' := s.pending[q].plan, DoCommit(s, q, job, site);
    if Lands(s, plan) {
      var made := if plan.AttachTo? then plan.job else job;
      assert made in s'.jobs && s'.jobs[made].quote == QuoteOf(plan);
    }
  }

  // ---- What one request gets done ---------------------------------------------------------

  predicate ActsFor(l: Label, q: nat) {
    match l
    case Read(a, _) => a == q
    case Commit(a, _, _) => a == q
    case Abort(a) => a == q
    case LogShift(a, _, _) => a == q
    case _ => false
  }

  // Request q does nothing in `run` after `from`.
  predicate Waits(from: Run<Label>, run: Run<Label>, q: nat) {
    run == from || (run.Then? && Waits(from, run.before, q) && !ActsFor(run.last, q))
  }

  lemma {:induction false} OthersLeaveIt(s: State, l: Label, q: nat)
    requires Enabled(s, l) && q in s.pending && !ActsFor(l, q)
    ensures q in Do(s, l).pending && Do(s, l).pending[q] == s.pending[q]
  {
  }

  lemma {:induction false} WaitingKeeps(from: Run<Label>, run: Run<Label>, q: nat)
    requires Waits(from, run, q) && Exec(from).Some? && Exec(run).Some? && q in Exec(from).value.pending
    ensures Prefix(from, run)
    ensures q in Exec(run).value.pending && Exec(run).value.pending[q] == Exec(from).value.pending[q]
  {
    if run != from {
      WaitingKeeps(from, run.before, q);
      OthersLeaveIt(Exec(run.before).value, run.last, q);
    }
  }

  predicate Opens(l: Label, q: nat) {
    (l.OpenQuote? || l.OpenOpportunity?) && l.q == q
  }

  // The reads of a request always answer something, and it can be given up at any time.
  lemma {:induction false} RequestsGoOn(s: State, q: nat)
    requires q in s.pending
    ensures Enabled(s, Abort(q))
    ensures s.pending[q].Opened? || s.pending[q].OpenedOpportunity? ==> exists found :: Enabled(s, Read(q, found))
  {
    var p := s.pending[q];
    if p.Opened? {
      var site := SiteFor(p);
      if site.Some? && p.linkSite == site && exists j :: j in s.jobs && Quoteless(s, j, site.value) {
        var j :| j in s.jobs && Quoteless(s, j, site.value);
        assert Enabled(s, Read(q, Some(j)));
      } else {
        assert Enabled(s, Read(q, None));
      }
    } else if p.OpenedOpportunity? {
      var o := p.opportunity;
      if k :| k in s.quotes && s.quotes[k] == Quote(Some(o), true) && !QuoteTaken(s.jobs, k) {
        assert Enabled(s, Read(q, Some(k)));
      } else {
        assert Enabled(s, Read(q, None));
      }
    }
  }

  // A request, step by step: its first reads, those in its transaction, and
  // the commit, with any steps of others in between.
  ghost predicate Carried(asked: Run<Label>, read: Run<Label>, landed: Run<Label>, q: nat) {
    && Exec(landed).Some? && Exec(read).Some? && Exec(asked).Some?
    && asked.Then? && Opens(asked.last, q)
    && read.Then? && read.last.Read? && read.last.q == q && Waits(asked, read.before, q)
    && landed.Then? && landed.last.Commit? && landed.last.q == q && Waits(read, landed.before, q)
  }

  // The site chosen, else the one the quote's opportunity had, if any.
  function Target(asked: Run<Label>): Option<nat>
    requires Exec(asked).Some? && asked.Then? && asked.last.OpenQuote?
  {
    var s, l := Exec(asked).value, asked.last;
    var o := s.quotes[l.quote].opportunity;
    if l.chosen.Some? then l.chosen else if o.Some? then s.opportunities[o.value].site else None
  }

  ghost predicate HasQuotedJob(s: State, quote: nat, site: nat) {
    exists j :: j in s.jobs && s.jobs[j] == Job(site, Some(quote), s.jobs[j].status)
  }

  lemma {:induction false} PlanWaits(asked: Run<Label>, read: Run<Label>, landed: Run<Label>, q: nat)
    requires Carried(asked, read, landed, q)
    ensures Exec(asked.before).Some? && Exec(read.before).Some? && Exec(landed.before).Some?
    ensures Prefix(read, landed.before)
    ensures q in Exec(asked).value.pending
    ensures var p := Exec(asked).value.pending[q];
      && ReadFits(Exec(read.before).value, p, read.last.found)
      && q in Exec(landed.before).value.pending
      && Exec(landed.before).value.pending[q] == Planned(PlanOf(Exec(read.before).value, p, read.last.found))
  {
    WaitingKeeps(asked, read.before, q);
    WaitingKeeps(read, landed.before, q);
  }

  // A request that lands had an accepted quote, and puts its job where it was asked to,
  // or else at a new site.
  lemma {:induction false} QuoteJobIsWhereAsked(asked: Run<Label>, read: Run<Label>, landed: Run<Label>, q: nat)
    requires Carried(asked, read, landed, q) && asked.last.OpenQuote? && q in Exec(landed.before).value.pending
    requires Lands(Exec(landed.before).value, Exec(landed.before).value.pending[q].plan)
    ensures asked.last.quote in Exec(asked).value.quotes && Exec(asked).value.quotes[asked.last.quote].accepted
    ensures forall j :: j in Exec(asked).value.jobs ==> Exec(asked).value.jobs[j].quote != Some(asked.last.quote)
    ensures asked.last.chosen.Some? ==> asked.last.chosen.value in Exec(asked).value.sites
    ensures var target := Target(asked);
      HasQuotedJob(Exec(landed).value, asked.last.quote, if target.Some? then target.value else landed.last.site)
    ensures Target(asked) == None ==> landed.last.site in Exec(landed).value.sites
  {
    PlanWaits(asked, read, landed, q);
    LinksAreWrittenOnce(read, landed.before);
    var s, s' := Exec(landed.before).value, Exec(landed).value;
    var plan := s.pending[q].plan;
    var made := if plan.AttachTo? then plan.job else landed.last.job;
    assert made in s'.jobs && s'.jobs[made].quote == Some(asked.last.quote);
  }

  // It moves the site's unattached shifts onto the job exactly when it read no live job there.
  lemma {:induction false} FirstJobTakesShifts(asked: Run<Label>, read: Run<Label>, landed: Run<Label>, q: nat)
    requires Carried(asked, read, landed, q) && asked.last.OpenQuote? && q in Exec(landed.before).value.pending
    requires Lands(Exec(landed.before).value, Exec(landed.before).value.pending[q].plan)
    ensures var target := Target(asked);
      var jobs := Exec(read.before).value.jobs;
      var s, s' := Exec(landed.before).value, Exec(landed).value;
      if target == None || exists j :: j in jobs && jobs[j].site == target.value && jobs[j].status != CANCELLED
      then s'.shifts == s.shifts
      else forall i :: Unattached(s, i, target.value) ==> s'.shifts[i] == s.shifts[i].(job := Some(landed.last.job))
  {
    PlanWaits(asked, read, landed, q);
  }

  // It takes over a live job without a quote at the opportunity's own site, if it read
  // one there, and else makes a new job.
  lemma {:induction false} OwnSiteJobIsReused(asked: Run<Label>, read: Run<Label>, landed: Run<Label>, q: nat)
    requires Carried(asked, read, landed, q) && asked.last.OpenQuote? && q in Exec(landed.before).value.pending
    requires Lands(Exec(landed.before).value, Exec(landed.before).value.pending[q].plan)
    ensures var target, o := Target(asked), Exec(asked).value.quotes[asked.last.quote].opportunity;
      var jobs := Exec(read.before).value.jobs;
      var s, s' := Exec(landed.before).value, Exec(landed).value;
      var own := target.Some? && o.Some? && Exec(asked).value.opportunities[o.value].site == target;
      if own && exists j :: j in jobs && jobs[j].site == target.value && jobs[j].quote == None
                            && jobs[j].status != CANCELLED
      then s'.jobs.Keys == s.jobs.Keys
      else s'.jobs.Keys == s.jobs.Keys + {landed.last.job} && s'.jobs[landed.last.job].status == ACTIVE
  {
    PlanWaits(asked, read, landed, q);
  }

  // Quote k of the opportunity is accepted and has no job yet.
  predicate AwaitsJob(s: State, o: nat, k: nat) {
    k in s.quotes && s.quotes[k].accepted && s.quotes[k].opportunity == Some(o)
    && forall j :: j in s.jobs ==> s.jobs[j].quote != Some(k)
  }

  // The other route needs a won opportunity; when it lands, that has a new site with a
  // new job, which carries an accepted quote that had none, if it read one.
  lemma {:induction false} OpportunityGetsJob(asked: Run<Label>, read: Run<Label>, landed: Run<Label>, q: nat)
    requires Carried(asked, read, landed, q) && asked.last.OpenOpportunity? && q in Exec(landed.before).value.pending
    requires Lands(Exec(landed.before).value, Exec(landed.before).value.pending[q].plan)
    ensures var o, l, s' := asked.last.opportunity, landed.last, Exec(landed).value;
      && o in Exec(asked).value.opportunities && Exec(asked).value.opportunities[o].won
      && o in s'.opportunities && s'.opportunities[o].site == Some(l.site) && l.site in s'.sites
      && l.job in s'.jobs && s'.jobs[l.job].site == l.site && s'.jobs[l.job].status == ACTIVE
      && match s'.jobs[l.job].quote
         case Some(k) => AwaitsJob(Exec(read.before).value, o, k)
         case None => forall k :: !AwaitsJob(Exec(read.before).value, o, k)
  {
    PlanWaits(asked, read, landed, q);
    var before := Exec(read.before).value;
    var o := asked.last.opportunity;
    forall k
      ensures AwaitsJob(before, o, k) <==>
        k in before.quotes && before.quotes[k] == Quote(Some(o), true) && !QuoteTaken(before.jobs, k)
    {
    }
  }

  // ---- Who takes a site's unattached shifts -------------------------------------------------

  // A live job was live ever since it was made.
  lemma LiveBefore(s: State, s': State, j: nat, site: nat)
    requires Keeps(s, s') && j in s.jobs && LiveAt(s', j, site)
    ensures HasLiveJob(s, site)
  {
    assert SameJob(s.jobs[j], s'.jobs[j]);
  }

  // A plan that takes a site's shifts rests on a count, made earlier in the run by the
  // same request, that found no live job there.
  lemma {:induction false} FirstWasCounted(run: Run<Label>, q: nat) returns (counted: Run<Label>)
    requires Exec(run).Some? && TakesShifts(Exec(run).value, q)
    ensures Prefix(counted, run) && counted.Then? && counted.last.Read? && counted.last.q == q
    ensures Exec(counted).Some? && !HasLiveJob(Exec(counted).value, Exec(run).value.pending[q].plan.site)
  {
    if run.last.Read? && run.last.q == q {
      counted := run;
      assert Exec(run).value.jobs == Exec(run.before).value.jobs;
    } else {
      counted := FirstWasCounted(run.before, q);
    }
  }

  predicate TakesShifts(s: State, q: nat) {
    q in s.pending && s.pending[q].Planned? && s.pending[q].plan.AtSite? && s.pending[q].plan.first
  }

  predicate Unattached(s: State, i: nat, site: nat) {
    i in s.shifts && s.shifts[i].site == site && s.shifts[i].job.None?
  }

  // The commit moves a shift to the new job although the site has another live one.
  ghost predicate TakesFromLiveJob(s: State, q: nat, job: nat, newSite: nat)
    requires Enabled(s, Commit(q, job, newSite)) && TakesShifts(s, q)
  {
    var s' := DoCommit(s, q, job, newSite);
    && (exists i :: Unattached(s, i, s.pending[q].plan.site) && s'.shifts[i].job == Some(job))
    && (exists j :: LiveAt(s', j, s.pending[q].plan.site) && j != job)
  }

  // That happens exactly when a live job was made at the site since the request counted
  // none, and there is an unattached shift to take.
  lemma {:induction false} TakesFromLiveJobIff(run: Run<Label>, q: nat, job: nat, newSite: nat)
    returns (counted: Run<Label>)
    requires Exec(run).Some? && Enabled(Exec(run).value, Commit(q, job, newSite)) && TakesShifts(Exec(run).value, q)
    requires Lands(Exec(run).value, Exec(run).value.pending[q].plan)
    ensures Prefix(counted, run) && counted.Then? && counted.last.Read? && counted.last.q == q && Exec(counted).Some?
    ensures var s, site := Exec(run).value, Exec(run).value.pending[q].plan.site;
      TakesFromLiveJob(s, q, job, newSite)
      <==> (exists i :: Unattached(s, i, site))
           && (exists j :: j !in Exec(counted).value.jobs && LiveAt(s, j, site))
  {
    counted := FirstWasCounted(run, q);
    LinksAreWrittenOnce(counted, run);
    var earlier, s, site := Exec(counted).value, Exec(run).value, Exec(run).value.pending[q].plan.site;
    var s' := DoCommit(s, q, job, newSite);
    forall j
      ensures LiveAt(s', j, site) && j != job <==> j !in earlier.jobs && LiveAt(s, j, site)
    {
      if j in earlier.jobs && LiveAt(s, j, site) {
        LiveBefore(earlier, s, j, site);
      }
    }
    forall i
      ensures Unattached(s, i, site) <==> Unattached(s, i, site) && s'.shifts[i].job == Some(job)
    {
    }
  }

  lemma Extend(run: Run<Label>, s: State, l: Label) returns (longer: Run<Label>, s': State)
    requires Exec(run) == Some(s) && Enabled(s, l)
    ensures longer == Then(run, l) && Exec(longer) == Some(s') && s' == Do(s, l)
  {
    longer, s' := Then(run, l), Do(s, l);
  }

  // Two accepted quotes, both opened for the same empty site.
  lemma BothOpened() returns (run: Run<Label>, s: State)
    ensures Exec(run) == Some(s) && s.sites == {0} && s.jobs == map[] && s.shifts == map[]
    ensures s.pending == map[0 := Opened(0, None, None, Some(0)), 1 := Opened(1, None, None, Some(0))]
  {
    run, s := Extend(Start, INIT, AddSite(0));
    run, s := Extend(run, s, Decide(0, Quote(None, true)));
    run, s := Extend(run, s, Decide(1, Quote(None, true)));
    run, s := Extend(run, s, OpenQuote(0, 0, Some(0)));
    run, s := Extend(run, s, OpenQuote(1, 1, Some(0)));
  }

  // Both count no job at the site, and neither has committed.
  lemma BothCounted() returns (run: Run<Label>, s: State)
    ensures Exec(run) == Some(s) && s.sites == {0} && s.jobs == map[] && s.shifts == map[]
    ensures s.pending == map[0 := Planned(AtSite(0, 0, true, None)), 1 := Planned(AtSite(0, 1, true, None))]
  {
    run, s := BothOpened();
    run, s := Extend(run, s, Read(0, None));
    run, s := Extend(run, s, Read(1, None));
  }

  // A shift is attributed while the site has no job, so to none; then one request
  // commits its job.
  lemma FirstCommitted() returns (run: Run<Label>, s: State)
    ensures Exec(run) == Some(s) && s.sites == {0} && s.shifts == map[] && s.jobs == map[0 := Job(0, Some(0), ACTIVE)]
    ensures s.pending == map[1 := Planned(AtSite(0, 1, true, None)), 2 := Attributed(0, None)]
  {
    run, s := BothCounted();
    run, s := Extend(run, s, Attribute(2, 0, None, None));
    run, s := Extend(run, s, Commit(0, 0, 5));
  }

  // The shift is logged after that, and the other request's job takes it, although the
  // first job is live.
  lemma SecondJobTakesShifts() returns (run: Run<Label>)
    ensures Exec(run).Some?
    ensures var s := Exec(run).value;
      LiveAt(s, 0, 0) && LiveAt(s, 1, 0) && 0 in s.shifts && s.shifts[0] == Shift(0, Some(1), 8)
  {
    var s: State;
    run, s := FirstCommitted();
    run, s := Extend(run, s, LogShift(2, 0, 8));
    assert s.shifts == map[0 := Shift(0, None, 8)] && 1 in s.pending;
    run, s := Extend(run, s, Commit(1, 1, 5));
  }

  // ---- Which job a shift is logged to --------------------------------------------------------

  predicate Only(jobs: set<nat>, j: nat) {
    jobs == {j}
  }

  // With no job given, a shift goes to the site's one ACTIVE job, or with none ACTIVE to
  // its one live job, or to none at a site without any; it is refused when there are more.
  lemma {:induction false} ShiftGoesTo(jobs: map<nat, Job>, site: nat, result: Option<nat>)
    ensures var live := set j | j in jobs && jobs[j].site == site && jobs[j].status in {ACTIVE, COMPLETE};
      var active := set j | j in live && jobs[j].status == ACTIVE;
      Attributes(jobs, site, None, result) <==>
        match result
        case Some(j) => Only(active, j) || (active == {} && Only(live, j))
        case None => live == {}
  {
    var live := set j | j in jobs && jobs[j].site == site && jobs[j].status in {ACTIVE, COMPLETE};
    var active := set j | j in live && jobs[j].status == ACTIVE;
    assert forall j :: j in live <==> OpenAt(jobs, j, site);
    assert forall j :: j in active <==> ActiveAt(jobs, j, site);
    if result.Some? {
      assert (forall j :: j in jobs && ActiveAt(jobs, j, site) ==> j == result.value) <==> active <= {result.value};
      assert (forall j :: j in jobs && OpenAt(jobs, j, site) ==> j == result.value) <==> live <= {result.value};
    }
  }

  // A job given must be a live one at the site.
  lemma {:induction false} ShiftGoesToGiven(jobs: map<nat, Job>, site: nat, given: nat, result: Option<nat>)
    ensures Attributes(jobs, site, Some(given), result) <==>
      result == Some(given) && given in jobs && jobs[given].site == site && jobs[given].status in {ACTIVE, COMPLETE}
  {
  }

  // ---- The writes of one transaction --------------------------------------------------------

  // The rows both routes write, changed in place by one transaction at a time.
  class Database {
    var opportunities: map<nat, Opportunity>
    var sites: set<nat>
    var jobs: map<nat, Job>
    var shifts: map<nat, Shift>

    ghost function View(s: State): State
      reads this
    {
      s.(opportunities := opportunities, sites := sites, jobs := jobs, shifts := shifts)
    }

    // updateMany with opsJobSiteId: null, answering how many rows it wrote.
    method Link(opportunity: nat, site: nat) returns (count: nat)
      modifies `opportunities
      ensures opportunities == Linked(old(opportunities), Some(opportunity), site)
      ensures count == if Unlinked(old(opportunities), opportunity) then 1 else 0
    {
      count := 0;
      if opportunity in opportunities && opportunities[opportunity].site.None? {
        opportunities := opportunities[opportunity := opportunities[opportunity].(site := Some(site))];
        count := 1;
      }
    }

    method UniqueQuote(quote: nat) returns (free: bool)
      ensures free == !QuoteTaken(jobs, quote)
    {
      free := forall j :: j in jobs ==> jobs[j].quote != Some(quote);
    }

    method JobAtSite(at: nat, quote: nat, first: bool, job: nat)
      requires job !in jobs
      modifies `jobs, `shifts
      ensures jobs == old(jobs)[job := Job(at, Some(quote), ACTIVE)]
      ensures shifts == if first then Taken(old(shifts), at, job) else old(shifts)
    {
      jobs := jobs[job := Job(at, Some(quote), ACTIVE)];
      if first {
        shifts := map id | id in shifts ::
          if shifts[id].site == at && shifts[id].job.None? then shifts[id].(job := Some(job)) else shifts[id];
      }
    }

    // One planned transaction: it commits all its writes, or none of them.
    method Commit(plan: Plan, job: nat, site: nat, ghost s: State, ghost q: nat) returns (landed: bool)
      requires View(s) == s && Enabled(s, Label.Commit(q, job, site)) && s.pending[q].plan == plan
      modifies this
      ensures landed == Lands(s, plan)
      ensures View(s.(pending := s.pending - {q})) == DoCommit(s, q, job, site)
    {
      match plan
      case AttachTo(j, quote) =>
        landed := UniqueQuote(quote);
        landed := landed && j in jobs && jobs[j].quote.None?;
        if landed { jobs := jobs[j := jobs[j].(quote := Some(quote))]; }
      case AtSite(at, quote, first, link) =>
        landed := UniqueQuote(quote);
        if landed {
          if link.Some? { var _ := Link(link.value, at); }
          JobAtSite(at, quote, first, job);
        }
      case AtNewSite(accepted, link) =>
        landed := true;
        if accepted.Some? { landed := UniqueQuote(accepted.value); }
        if landed {
          if link.Some? {
            var count := Link(link.value, site);
            landed := count == 1;
          }
          if landed {
            sites := sites + {site};
            jobs := jobs[job := Job(site, accepted, ACTIVE)];
          }
        }
    }
  }
}
