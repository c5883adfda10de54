/**
 Closing out a job and reopening it. A closeout reads the job, then its shifts,
 then the crew rates, stamps the time, and only then writes, guarded by the job
 still being ACTIVE; shifts, rates and the contract may change between any two of
 those steps. One job is modelled, with any number of requests at work on it.

 The figures themselves are any function of what they are computed from, so a
 snapshot is kept as those inputs.
 */
module Closeout {
  import opened Wrappers

  datatype Status = ACTIVE | COMPLETE | CANCELLED

  datatype Shift = Shift(crew: nat, hours: real, end: Option<nat>, created: nat)

  // The quoted amount and the prices of the approved variations.
  datatype Contract = Contract(quoted: Option<int>, approved: map<nat, Option<int>>)

  datatype Inputs = Inputs(
    shifts: map<nat, Shift>, rates: map<nat, Option<real>>, contract: Contract,
    revenue: Option<int>, otherCost: Option<int>, onCostPct: Option<real>)

  datatype Snapshot = Snapshot(inputs: Inputs, frozenAt: nat)

  datatype JobRow = JobRow(
    status: Status, closeout: Option<Snapshot>, version: nat,
    revenue: Option<int>, otherCost: Option<int>, completedAt: Option<nat>)

  // An absent field keeps what is recorded; a null one makes it unknown.
  datatype Ask = Ask(revenue: Option<Option<int>>, otherCost: Option<Option<int>>, onCostPct: Option<real>)

  datatype Closer =
    | Loaded(ask: Ask, row: JobRow, contract: Contract)
    | Counted(ask: Ask, row: JobRow, contract: Contract, shifts: map<nat, Shift>)
    | Ready(ask: Ask, row: JobRow, snapshot: Snapshot)

  datatype State = State(
    job: JobRow, contract: Contract, shifts: map<nat, Shift>, crew: map<nat, Option<real>>,
    closers: map<nat, Closer>, reopeners: set<nat>, clock: nat)

  datatype Label =
    | Load(c: nat, ask: Ask)
    | Count(c: nat)
    | Stamp(c: nat)
    | Close(c: nat)
    | Abort(c: nat)
    | Look(r: nat)
    | Reopen(r: nat)
    | Attach(id: nat, shift: Shift)
    | Edit(id: nat, hours: real, end: Option<nat>)
    | Detach(id: nat)
    | Rate(crew: map<nat, Option<real>>)
    | Agree(contract: Contract)
    | Tick(at: nat)

  predicate AllEnded(shifts: map<nat, Shift>) {
    forall id :: id in shifts ==> shifts[id].end.Some?
  }

  // The rates of the crew that worked the shifts.
  function RatesFor(crew: map<nat, Option<real>>, shifts: map<nat, Shift>): map<nat, Option<real>> {
    map c | c in crew && exists id :: id in shifts && shifts[id].crew == c :: crew[c]
  }

  function Chosen<T>(asked: Option<T>, recorded: T): T {
    if asked.Some? then asked.value else recorded
  }

  // ---- The two guarded updates ---------------------------------------------------------

  function Closed(row: JobRow, snapshot: Snapshot): JobRow {
    if row.status != ACTIVE then row
    else JobRow(COMPLETE, Some(snapshot), row.version + 1,
                snapshot.inputs.revenue, snapshot.inputs.otherCost, Some(snapshot.frozenAt))
  }

  function Reopened(row: JobRow): JobRow {
    if row.status != COMPLETE then row
    else row.(status := ACTIVE, closeout := None, completedAt := None)
  }

  class JobStore {
    var row: JobRow

    // A job is created ACTIVE, with nothing recorded.
    constructor ()
      ensures row == NEW_JOB
    {
      row := NEW_JOB;
    }

    method Close(snapshot: Snapshot) returns (count: nat)
      modifies this
      ensures row == Closed(old(row), snapshot)
      ensures count == if old(row).status == ACTIVE then 1 else 0
    {
      count := 0;
      if row.status == ACTIVE {
        row := row.(status := COMPLETE, closeout := Some(snapshot), version := row.version + 1);
        row := row.(revenue := snapshot.inputs.revenue, otherCost := snapshot.inputs.otherCost);
        row := row.(completedAt := Some(snapshot.frozenAt));
        count := 1;
      }
    }

    method Reopen() returns (count: nat)
      modifies this
      ensures row == Reopened(old(row))
      ensures count == if old(row).status == COMPLETE then 1 else 0
    {
      count := 0;
      if row.status == COMPLETE {
        row := row.(status := ACTIVE, closeout := None, completedAt := None);
        count := 1;
      }
    }
  }

  // ---- Steps ---------------------------------------------------------------------------

  const NEW_JOB := JobRow(ACTIVE, None, 0, None, None, None)
  const INIT := State(NEW_JOB, Contract(None, map[]), map[], map[], map[], {}, 0)

  predicate Enabled(s: State, l: Label) {
    match l
    case Load(c, _) => c !in s.closers && s.job.status == ACTIVE
    case Count(c) => c in s.closers && s.closers[c].Loaded?
    case Stamp(c) => c in s.closers && s.closers[c].Counted?
    case Close(c) => c in s.closers && s.closers[c].Ready?
    case Abort(c) => c in s.closers
    case Look(r) => r !in s.reopeners && s.job.status == COMPLETE
    case Reopen(r) => r in s.reopeners
    // A shift is clocked on now, or an older one is edited onto the job.
    case Attach(id, shift) => id !in s.shifts && shift.created <= s.clock
    case Edit(id, _, _) => id in s.shifts
    case Detach(id) => id in s.shifts
    case Rate(_) => true
    case Agree(_) => true
    case Tick(at) => s.clock <= at
  }

  function SnapshotOf(s: State, c: Closer): Snapshot
    requires c.Counted?
  {
    Snapshot(Inputs(c.shifts, RatesFor(s.crew, c.shifts), c.contract,
                    Chosen(c.ask.revenue, c.row.revenue),
                    Chosen(c.ask.otherCost, c.row.otherCost), c.ask.onCostPct), s.clock)
  }

  // An open shift refuses the closeout.
  function NextClosers(s: State, l: Label): map<nat, Closer>
    requires Enabled(s, l)
  {
    match l
    case Load(c, ask) => s.closers[c := Loaded(ask, s.job, s.contract)]
    case Count(c) =>
      var loaded := s.closers[c];
      if AllEnded(s.shifts) then s.closers[c := Counted(loaded.ask, loaded.row, loaded.contract, s.shifts)]
      else s.closers - {c}
    case Stamp(c) => s.closers[c := Ready(s.closers[c].ask, s.closers[c].row, SnapshotOf(s, s.closers[c]))]
    case Close(c) => s.closers - {c}
    case Abort(c) => s.closers - {c}
    case _ => s.closers
  }

  function NextShifts(s: State, l: Label): map<nat, Shift>
    requires Enabled(s, l)
  {
    match l
    case Attach(id, shift) => s.shifts[id := shift]
    case Edit(id, hours, end) => s.shifts[id := s.shifts[id].(hours := hours, end := end)]
    case Detach(id) => s.shifts - {id}
    case _ => s.shifts
  }

  function NextJob(s: State, l: Label): JobRow
    requires Enabled(s, l)
  {
    match l
    case Close(c) => Closed(s.job, s.closers[c].snapshot)
    case Reopen(_) => Reopened(s.job)
    case _ => s.job
  }

  function Do(s: State, l: Label): State
    requires Enabled(s, l)
  {
    State(NextJob(s, l),
          if l.Agree? then l.contract else s.contract,
          NextShifts(s, l),
          if l.Rate? then l.crew else s.crew,
          NextClosers(s, l),
          if l.Look? then s.reopeners + {l.r} else if l.Reopen? then s.reopeners - {l.r} else s.reopeners,
          if l.Tick? then l.at else s.clock)
  }

  function Exec(run: Run<Label>): Option<State> {
    match run
    case Start => Some(INIT)
    case Then(before, l) =>
      var s := Exec(before);
      if s.Some? && Enabled(s.value, l) then Some(Do(s.value, l)) else None
  }

  // ---- The tables hold what was last written --------------------------------------------------

  function LastRates(run: Run<Label>): map<nat, Option<real>> {
    match run
    case Start => map[]
    case Then(before, l) => if l.Rate? then l.crew else LastRates(before)
  }

  function LastContract(run: Run<Label>): Contract {
    match run
    case Start => Contract(None, map[])
    case Then(before, l) => if l.Agree? then l.contract else LastContract(before)
  }

  // A shift as it was put on the job and last edited; None while it is not on the job.
  function LastWork(run: Run<Label>, id: nat): Option<Shift> {
    match run
    case Start => None
    case Then(before, l) =>
      var work := LastWork(before, id);
      if l.Attach? && l.id == id then Some(l.shift)
      else if l.Detach? && l.id == id then None
      else if l.Edit? && l.id == id && work.Some?
        then Some(Shift(work.value.crew, l.hours, l.end, work.value.created))
      else work
  }

  lemma {:induction false} TablesHoldLastWritten(run: Run<Label>, id: nat)
    requires Exec(run).Some?
    ensures var s := Exec(run).value;
            && s.crew == LastRates(run) && s.contract == LastContract(run)
            && LastWork(run, id) == if id in s.shifts then Some(s.shifts[id]) else None
  {
    if run.Then? {
      TablesHoldLastWritten(run.before, id);
    }
  }

  // Rates and the contract may change, and time pass, between any two steps; a request
  // that wrote, or gave up, is over.
  lemma {:induction false} RequestsEnd(s: State, l: Label, crew: map<nat, Option<real>>, contract: Contract)
    requires Enabled(s, l)
    ensures Enabled(s, Rate(crew)) && Enabled(s, Agree(contract)) && Enabled(s, Tick(s.clock))
    ensures forall c: nat :: c in s.closers ==> Enabled(s, Abort(c))
    ensures forall id: nat :: id in s.shifts ==> Enabled(s, Detach(id))
    ensures l.Look? ==> s.job.status == COMPLETE
    ensures l.Close? || l.Abort? ==> Do(s, l).closers == s.closers - {l.c}
    ensures l.Reopen? ==> Do(s, l).reopeners == s.reopeners - {l.r}
  {
  }

  // ---- Status, snapshot and completion time agree ----------------------------------------

  // The number of closeouts that landed.
  function Closeouts(run: Run<Label>): nat {
    match run
    case Start => 0
    case Then(before, l) =>
      Closeouts(before) + if l.Close? && Exec(before).Some? && Exec(before).value.job.status == ACTIVE then 1 else 0
  }

  predicate JobFits(job: JobRow) {
    && (job.status == COMPLETE <==> job.closeout.Some?)
    && (job.status == COMPLETE <==> job.completedAt.Some?)
    && (job.closeout.Some? ==>
          && job.completedAt == Some(job.closeout.value.frozenAt)
          && AllEnded(job.closeout.value.inputs.shifts)
          && job.revenue == job.closeout.value.inputs.revenue && job.otherCost == job.closeout.value.inputs.otherCost)
  }

  predicate CloserFits(c: Closer) {
    match c
    case Loaded(_, _, _) => true
    case Counted(_, _, _, shifts) => AllEnded(shifts)
    case Ready(_, _, snapshot) => AllEnded(snapshot.inputs.shifts)
  }

  ghost predicate ClosersFit(closers: map<nat, Closer>) {
    forall c :: c in closers ==> CloserFits(closers[c])
  }

  lemma ClosersFitStep(s: State, l: Label)
    requires ClosersFit(s.closers) && Enabled(s, l)
    ensures ClosersFit(NextClosers(s, l))
  {
    var next := NextClosers(s, l);
    forall c | c in next ensures CloserFits(next[c]) {
      assert c in s.closers ==> CloserFits(s.closers[c]);
    }
  }

  lemma {:induction false} CompleteMeansClosedOut(run: Run<Label>)
    requires Exec(run).Some?
    ensures JobFits(Exec(run).value.job) && Exec(run).value.job.version == Closeouts(run)
    ensures ClosersFit(Exec(run).value.closers)
  {
    if run.Then? {
      CompleteMeansClosedOut(run.before);
      var s := Exec(run.before).value;
      ClosersFitStep(s, run.last);
      assert run.last.Close? ==> CloserFits(s.closers[run.last.c]);
    }
  }

  // ---- The reported figures ---------------------------------------------------------------

  function LiveInputs(s: State): Inputs {
    Inputs(s.shifts, RatesFor(s.crew, s.shifts), s.contract, s.job.revenue, s.job.otherCost, None)
  }

  // A completed job reports its snapshot, any other the live view.
  function Reported<F>(s: State, compute: Inputs -> F): F {
    compute(if s.job.closeout.Some? then s.job.closeout.value.inputs else LiveInputs(s))
  }

  // No reopen lands in `longer` after `run`.
  predicate StaysClosed(run: Run<Label>, longer: Run<Label>) {
    run == longer
    || (longer.Then? && StaysClosed(run, longer.before)
        && (longer.last.Reopen? && Exec(longer.before).Some? ==> Exec(longer.before).value.job.status != COMPLETE))
  }

  lemma {:induction false} FiguresStayFrozen<F>(run: Run<Label>, longer: Run<Label>, compute: Inputs -> F)
    requires StaysClosed(run, longer) && Exec(run).Some? && Exec(longer).Some?
    requires Exec(run).value.job.status == COMPLETE
    ensures Exec(longer).value.job == Exec(run).value.job
    ensures Reported(Exec(longer).value, compute) == Reported(Exec(run).value, compute)
  {
    CompleteMeansClosedOut(run);
    if run != longer {
      FiguresStayFrozen(run, longer.before, compute);
    }
  }

  // ---- What a closeout freezes ----------------------------------------------------------------

  // A step that leaves alone what closer c's figures are computed from.
  predicate Undisturbing(l: Label, c: nat) {
    match l
    case Load(a, _) => a != c
    case Close(_) => false
    case Abort(a) => a != c
    case Attach(_, _) => false
    case Edit(_, _, _) => false
    case Detach(_) => false
    case Rate(_) => false
    case Agree(_) => false
    case _ => true
  }

  // `longer` only adds undisturbing steps after `run`.
  predicate Undisturbed(run: Run<Label>, longer: Run<Label>, c: nat) {
    run == longer || (longer.Then? && Undisturbed(run, longer.before, c) && Undisturbing(longer.last, c))
  }

  // ---- What the figures are computed from, shift by shift ---------------------------------------

  function RateOf(rates: map<nat, Option<real>>, member: nat): Option<Option<real>> {
    if member in rates then Some(rates[member]) else None
  }

  // The inputs hold these shifts, and for whoever worked them the crew table's rate.
  ghost predicate ShowsWork(inputs: Inputs, shifts: map<nat, Shift>, crew: map<nat, Option<real>>) {
    && inputs.shifts == shifts
    && forall id :: id in shifts ==> RateOf(inputs.rates, shifts[id].crew) == RateOf(crew, shifts[id].crew)
  }

  // The figures look up the rates of their own shifts' crew only.
  ghost predicate UsesOwnRates<F(!new)>(compute: Inputs -> F) {
    forall a: Inputs, b: Inputs :: ShowsWork(a, b.shifts, b.rates) && SameTerms(a, b) ==> compute(a) == compute(b)
  }

  predicate SameTerms(a: Inputs, b: Inputs) {
    a.contract == b.contract && a.revenue == b.revenue && a.otherCost == b.otherCost && a.onCostPct == b.onCostPct
  }

  lemma {:induction false} RatesForShowWork(inputs: Inputs, crew: map<nat, Option<real>>)
    requires inputs.rates == RatesFor(crew, inputs.shifts)
    ensures ShowsWork(inputs, inputs.shifts, crew)
  {
    var shifts := inputs.shifts;
    forall id | id in shifts
      ensures RateOf(inputs.rates, shifts[id].crew) == RateOf(crew, shifts[id].crew)
    {
    }
  }

  // Equal on the crew of its own shifts, equal figures.
  lemma {:induction false} SameWorkSameFigures<F(!new)>(a: Inputs, b: Inputs, crew: map<nat, Option<real>>,
      compute: Inputs -> F)
    requires UsesOwnRates(compute) && ShowsWork(a, b.shifts, crew) && ShowsWork(b, b.shifts, crew) && SameTerms(a, b)
    ensures compute(a) == compute(b)
  {
    assert ShowsWork(a, b.shifts, b.rates);
  }

  // An open job reports the shifts on it now, at the rates and the contract of now.
  lemma {:induction false} OpenJobReports<F(!new)>(s: State, inputs: Inputs, compute: Inputs -> F)
    requires UsesOwnRates(compute) && s.job.closeout.None? && ShowsWork(inputs, s.shifts, s.crew)
    requires SameTerms(inputs, Inputs(s.shifts, s.crew, s.contract, s.job.revenue, s.job.otherCost, None))
    ensures Reported(s, compute) == compute(inputs)
  {
    RatesForShowWork(LiveInputs(s), s.crew);
    SameWorkSameFigures(LiveInputs(s), inputs, s.crew, compute);
  }

  // A closeout goes on past its count exactly when every shift has ended.
  lemma {:induction false} CountPassesIff(s: State, c: nat)
    requires Enabled(s, Count(c))
    ensures c in Do(s, Count(c)).closers <==> forall id :: id in s.shifts ==> s.shifts[id].end != None
  {
  }

  // The live inputs, with what the request asked for in place of what is recorded.
  function Asked(s: State, ask: Ask): Inputs {
    LiveInputs(s).(revenue := Chosen(ask.revenue, s.job.revenue),
                   otherCost := Chosen(ask.otherCost, s.job.otherCost),
                   onCostPct := ask.onCostPct)
  }

  predicate Current(s: State, closer: Closer, ask: Ask) {
    match closer
    case Loaded(_, row, contract) => row == s.job && contract == s.contract
    case Counted(_, row, contract, shifts) => row == s.job && contract == s.contract && shifts == s.shifts
    case Ready(_, _, snapshot) => snapshot.inputs == Asked(s, ask)
  }

  predicate UpToDate(s: State, c: nat, ask: Ask) {
    s.job.status == ACTIVE && (c in s.closers ==> s.closers[c].ask == ask && Current(s, s.closers[c], ask))
  }

  lemma UpToDateStep(s: State, l: Label, c: nat, ask: Ask)
    requires Enabled(s, l) && UpToDate(s, c, ask) && c in s.closers && Undisturbing(l, c)
    ensures UpToDate(Do(s, l), c, ask)
  {
  }

  // A closeout that nothing disturbs freezes the live figures of the moment it lands.
  lemma {:induction false} QuietCloseoutFreezesLiveFigures(loaded: Run<Label>, run: Run<Label>, c: nat)
    requires loaded.Then? && loaded.last.Load? && loaded.last.c == c
    requires Undisturbed(loaded, run, c) && Exec(loaded).Some? && Exec(run).Some?
    ensures c in Exec(run).value.closers ==> UpToDate(Exec(run).value, c, loaded.last.ask)
    ensures var s := Exec(run).value;
      Enabled(s, Close(c)) ==>
        var s' := Do(s, Close(c));
        s'.job.status == COMPLETE && s'.job.closeout.value.inputs == Asked(s, loaded.last.ask)
  {
    if run != loaded {
      QuietCloseoutFreezesLiveFigures(loaded, run.before, c);
      if c in Exec(run.before).value.closers {
        UpToDateStep(Exec(run.before).value, run.last, c, loaded.last.ask);
      }
    }
  }

  // Once it has landed, the job reports the shifts, the rates and the contract it had
  // just before, and the money the request named or else the row recorded.
  lemma {:induction false} QuietCloseoutReports<F(!new)>(loaded: Run<Label>, run: Run<Label>, c: nat, inputs: Inputs,
      compute: Inputs -> F)
    requires loaded.Then? && loaded.last.Load? && loaded.last.c == c
    requires Undisturbed(loaded, run, c) && Exec(loaded).Some? && Exec(run).Some? && Enabled(Exec(run).value, Close(c))
    requires UsesOwnRates(compute) && ShowsWork(inputs, Exec(run).value.shifts, Exec(run).value.crew)
    requires var s, ask := Exec(run).value, loaded.last.ask;
             && inputs.contract == s.contract && inputs.onCostPct == ask.onCostPct
             && (inputs.revenue == if ask.revenue.Some? then ask.revenue.value else s.job.revenue)
             && (inputs.otherCost == if ask.otherCost.Some? then ask.otherCost.value else s.job.otherCost)
    ensures Reported(Do(Exec(run).value, Close(c)), compute) == compute(inputs)
  {
    QuietCloseoutFreezesLiveFigures(loaded, run, c);
    var s := Exec(run).value;
    var asked := Asked(s, loaded.last.ask);
    RatesForShowWork(asked, s.crew);
    SameWorkSameFigures(asked, inputs, s.crew, compute);
  }

  // ---- Fields the request leaves out ------------------------------------------------------------

  predicate SameMoney(row: JobRow, job: JobRow) {
    row.version <= job.version
    && (row.version == job.version ==> row.revenue == job.revenue && row.otherCost == job.otherCost)
  }

  predicate ReadEarlier(s: State, c: Closer) {
    SameMoney(c.row, s.job)
    && (c.Ready? ==> c.snapshot.inputs.revenue == Chosen(c.ask.revenue, c.row.revenue)
                     && c.snapshot.inputs.otherCost == Chosen(c.ask.otherCost, c.row.otherCost))
  }

  lemma {:induction false} ClosersReadEarlier(run: Run<Label>)
    requires Exec(run).Some?
    ensures forall c :: c in Exec(run).value.closers ==> ReadEarlier(Exec(run).value, Exec(run).value.closers[c])
  {
    if run.Then? {
      ClosersReadEarlier(run.before);
      var s, s' := Exec(run.before).value, Exec(run).value;
      forall c | c in s'.closers ensures ReadEarlier(s', s'.closers[c]) {
        assert c in s.closers ==> ReadEarlier(s, s.closers[c]);
      }
    }
  }

  // Where in the run a closer loaded the row it works with.
  lemma {:induction false} CloserLoaded(run: Run<Label>, c: nat) returns (loaded: Run<Label>)
    requires Exec(run).Some? && c in Exec(run).value.closers
    ensures Prefix(loaded, run) && Exec(loaded).Some?
    ensures loaded.Then? && loaded.last == Load(c, Exec(run).value.closers[c].ask)
    ensures Exec(run).value.closers[c].row == Exec(loaded).value.job
  {
    if run.last.Load? && run.last.c == c {
      loaded := run;
    } else {
      loaded := CloserLoaded(run.before, c);
    }
  }

  // While no other closeout has landed since a closer loaded the job, it keeps each field
  // it left out; in general a field is kept exactly when what the job recorded then is
  // what it records now.
  lemma {:induction false} LeftOutFieldsAreKeptIff(run: Run<Label>, c: nat) returns (loaded: Run<Label>)
    requires Exec(run).Some? && Enabled(Exec(run).value, Close(c)) && Exec(run).value.job.status == ACTIVE
    ensures Prefix(loaded, run) && Exec(loaded).Some?
    ensures loaded.Then? && loaded.last == Load(c, Exec(run).value.closers[c].ask)
    ensures var ask, was, now := loaded.last.ask, Exec(loaded).value.job, Exec(run).value.job;
      var job := Do(Exec(run).value, Close(c)).job;
      && (Closeouts(loaded) == Closeouts(run) && ask.revenue.None? ==> job.revenue == now.revenue)
      && (Closeouts(loaded) == Closeouts(run) && ask.otherCost.None? ==> job.otherCost == now.otherCost)
      && (ask.revenue.None? ==> (job.revenue == now.revenue <==> was.revenue == now.revenue))
      && (ask.otherCost.None? ==> (job.otherCost == now.otherCost <==> was.otherCost == now.otherCost))
  {
    loaded := CloserLoaded(run, c);
    CompleteMeansClosedOut(run);
    CompleteMeansClosedOut(loaded);
    ClosersReadEarlier(run);
    assert ReadEarlier(Exec(run).value, Exec(run).value.closers[c]);
  }

  lemma Extend(run: Run<Label>, s: State, l: Label) returns (longer: Run<Label>, s': State)
    requires Exec(run) == Some(s) && Enabled(s, l)
    ensures longer == Then(run, l) && Exec(longer) == Some(s') && s' == Do(s, l)
  {
    longer, s' := Then(run, l), Do(s, l);
  }

  // One closer has stamped figures without revenue, and another, asking for 900, has
  // loaded the job.
  lemma TwoClosers() returns (run: Run<Label>, s: State)
    ensures Exec(run) == Some(s) && s.job == NEW_JOB && s.shifts == map[] && s.reopeners == {}
    ensures 0 in s.closers && s.closers[0].Ready? && s.closers[0].ask == Ask(None, None, None)
    ensures s.closers[0].snapshot.inputs.revenue == None
    ensures 1 in s.closers && s.closers[1] == Loaded(Ask(Some(Some(900)), None, None), NEW_JOB, s.contract)
  {
    run, s := Extend(Start, INIT, Load(0, Ask(None, None, None)));
    run, s := Extend(run, s, Count(0));
    assert s.closers[0].Counted? && s.closers[0].row.revenue == None;
    run, s := Extend(run, s, Stamp(0));
    run, s := Extend(run, s, Load(1, Ask(Some(Some(900)), None, None)));
  }

  // The guard tests the status only: a closeout and a reopen in between restore it,
  // and the slower request then writes back the revenue it read before both.
  lemma SlowCloseoutForgetsRevenue() returns (run: Run<Label>)
    ensures Exec(run).Some? && Enabled(Exec(run).value, Close(0))
    ensures var s := Exec(run).value;
      && s.closers[0].ask == Ask(None, None, None) && s.job.revenue == Some(900)
      && Do(s, Close(0)).job.status == COMPLETE && Do(s, Close(0)).job.revenue == None
  {
    var s: State;
    run, s := TwoClosers();
    ghost var slow := s.closers[0];
    run, s := Extend(run, s, Count(1));
    run, s := Extend(run, s, Stamp(1));
    assert s.closers[1].snapshot.inputs.revenue == Some(900) && s.closers[0] == slow;
    run, s := Extend(run, s, Close(1));
    run, s := Extend(run, s, Look(0));
    assert s.job.revenue == Some(900) && s.closers[0] == slow;
    run, s := Extend(run, s, Reopen(0));
  }

  // ---- Shifts the figures leave out ----------------------------------------------------------

  // What the job says about shifts its figures do not include.
  predicate CountedLate(job: JobRow, shift: Shift) {
    job.completedAt.Some? && shift.created > job.completedAt.value
  }

  // Shift id is in the figures of a closed job, or the job says it came late.
  predicate AccountedFor(s: State, id: nat)
    requires id in s.shifts && s.job.closeout.Some?
  {
    id in s.job.closeout.value.inputs.shifts || CountedLate(s.job, s.shifts[id])
  }

  // No step of `longer` after `run` takes shift id off the job.
  predicate Stays(run: Run<Label>, longer: Run<Label>, id: nat) {
    run == longer || (longer.Then? && Stays(run, longer.before, id) && !(longer.last.Detach? && longer.last.id == id))
  }

  // A step of `longer` after `run` put shift id on the job, and none after it took it off.
  predicate CameOn(run: Run<Label>, longer: Run<Label>, id: nat) {
    run != longer && longer.Then? &&
    ((longer.last.Attach? && longer.last.id == id)
     || (CameOn(run, longer.before, id) && !(longer.last.Detach? && longer.last.id == id)))
  }

  // A shift on the job has been there since `run`, or came on later.
  lemma {:induction false} ShiftOrigin(run: Run<Label>, longer: Run<Label>, id: nat)
    requires Prefix(run, longer) && Exec(run).Some? && Exec(longer).Some?
    ensures id in Exec(longer).value.shifts
      <==> (id in Exec(run).value.shifts && Stays(run, longer, id)) || CameOn(run, longer, id)
  {
    if run != longer {
      ShiftOrigin(run, longer.before, id);
    }
  }

  lemma {:induction false} ShiftsAreFromThePast(run: Run<Label>)
    requires Exec(run).Some?
    ensures forall id :: id in Exec(run).value.shifts ==> Exec(run).value.shifts[id].created <= Exec(run).value.clock
  {
    if run.Then? {
      ShiftsAreFromThePast(run.before);
    }
  }

  lemma {:induction false} StayingKeepsItsTime(run: Run<Label>, longer: Run<Label>, id: nat)
    requires Prefix(run, longer) && Exec(run).Some? && Exec(longer).Some?
    requires id in Exec(run).value.shifts && Stays(run, longer, id)
    ensures id in Exec(longer).value.shifts
    ensures Exec(longer).value.shifts[id].created == Exec(run).value.shifts[id].created
  {
    if run != longer {
      StayingKeepsItsTime(run, longer.before, id);
    }
  }

  // Closer c counted the shifts in the last step of `counted`, and nothing happened to it
  // until it read the rates and stamped the time in the last step of `stamped`.
  predicate Waits(counted: Run<Label>, run: Run<Label>, c: nat) {
    run == counted
    || (run.Then? && Waits(counted, run.before, c)
        && !((run.last.Abort? || run.last.Stamp?) && run.last.c == c))
  }

  ghost predicate CountedAndStamped(counted: Run<Label>, stamped: Run<Label>, c: nat) {
    && counted.Then? && counted.last == Count(c) && Exec(counted).Some? && c in Exec(counted).value.closers
    && stamped.Then? && stamped.last == Stamp(c) && Exec(stamped).Some? && Waits(counted, stamped.before, c)
  }

  lemma {:induction false} WaitingCloserKeepsItsCount(counted: Run<Label>, run: Run<Label>, c: nat)
    requires Prefix(counted, run) && counted.Then? && counted.last == Count(c)
    requires Exec(counted).Some? && Exec(run).Some? && c in Exec(counted).value.closers && Waits(counted, run, c)
    ensures c in Exec(run).value.closers && Exec(run).value.closers[c].Counted?
    ensures Exec(run).value.closers[c].shifts == Exec(counted).value.shifts
  {
    if run != counted {
      WaitingCloserKeepsItsCount(counted, run.before, c);
    }
  }

  // The snapshot a closer stamps holds the shifts it counted and the time of the stamp.
  lemma {:induction false} StampedFromCount(counted: Run<Label>, stamped: Run<Label>, c: nat)
    requires Prefix(counted, stamped) && CountedAndStamped(counted, stamped, c)
    ensures c in Exec(stamped).value.closers && Exec(stamped).value.closers[c].Ready?
    ensures var snapshot := Exec(stamped).value.closers[c].snapshot;
      snapshot.inputs.shifts == Exec(counted).value.shifts && snapshot.frozenAt == Exec(stamped).value.clock
  {
    WaitingIsPrefix(counted, stamped.before, c);
    WaitingCloserKeepsItsCount(counted, stamped.before, c);
  }

  // Its rates are the crew table's at the stamp, for everybody who worked a counted
  // shift and is in the table, and for nobody else.
  lemma {:induction false} StampedRates(counted: Run<Label>, stamped: Run<Label>, c: nat)
    requires Prefix(counted, stamped) && CountedAndStamped(counted, stamped, c)
    ensures c in Exec(stamped).value.closers && Exec(stamped).value.closers[c].Ready?
    ensures var rates := Exec(stamped).value.closers[c].snapshot.inputs.rates;
      var shifts, crew := Exec(counted).value.shifts, Exec(stamped).value.crew;
      && (forall id :: id in shifts && shifts[id].crew in crew ==>
            shifts[id].crew in rates && rates[shifts[id].crew] == crew[shifts[id].crew])
      && (forall member :: member in rates ==>
            member in crew && exists id :: id in shifts && shifts[id].crew == member)
  {
    WaitingIsPrefix(counted, stamped.before, c);
    WaitingCloserKeepsItsCount(counted, stamped.before, c);
  }

  lemma {:induction false} WaitingIsPrefix(counted: Run<Label>, run: Run<Label>, c: nat)
    requires Waits(counted, run, c)
    ensures Prefix(counted, run)
  {
    if run != counted {
      WaitingIsPrefix(counted, run.before, c);
    }
  }

  // One shift of a job closed on closer c's snapshot is left out exactly when it was not
  // counted, and either came on between the count and the stamp and stayed, or is an
  // older shift that was moved onto the job after the stamp.
  lemma {:induction false} ShiftIsLeftOutIff(counted: Run<Label>, stamped: Run<Label>, run: Run<Label>, c: nat, id: nat)
    requires Prefix(counted, stamped) && Prefix(stamped, run) && CountedAndStamped(counted, stamped, c)
    requires Exec(run).Some? && c in Exec(stamped).value.closers && Exec(stamped).value.closers[c].Ready?
    requires Exec(run).value.job.closeout == Some(Exec(stamped).value.closers[c].snapshot)
    requires id in Exec(run).value.shifts
    ensures !AccountedFor(Exec(run).value, id)
      <==> id !in Exec(counted).value.shifts
           && ((CameOn(counted, stamped, id) && Stays(stamped, run, id))
               || (CameOn(stamped, run, id) && Exec(run).value.shifts[id].created <= Exec(stamped).value.clock))
  {
    CompleteMeansClosedOut(run);
    StampedFromCount(counted, stamped, c);
    ShiftOrigin(stamped, run, id);
    ShiftOrigin(counted, stamped, id);
    if id in Exec(stamped).value.shifts && Stays(stamped, run, id) {
      ShiftsAreFromThePast(stamped);
      StayingKeepsItsTime(stamped, run, id);
    }
  }

  ghost predicate AllAccountedFor(s: State)
    requires s.job.closeout.Some?
  {
    forall id :: id in s.shifts ==> AccountedFor(s, id)
  }

  // Every shift of the closed job is in the figures or counted as late exactly when no
  // uncounted shift came on between the closer's count and its stamp and stayed, and no
  // older one was moved onto the job after the stamp.
  lemma {:induction false} EveryShiftIsAccountedForIff(counted: Run<Label>, stamped: Run<Label>,
      run: Run<Label>, c: nat)
    requires Prefix(counted, stamped) && Prefix(stamped, run) && CountedAndStamped(counted, stamped, c)
    requires Exec(run).Some? && c in Exec(stamped).value.closers && Exec(stamped).value.closers[c].Ready?
    requires Exec(run).value.job.closeout == Some(Exec(stamped).value.closers[c].snapshot)
    ensures AllAccountedFor(Exec(run).value)
      <==> forall id :: id in Exec(run).value.shifts && id !in Exec(counted).value.shifts ==>
             && !(CameOn(counted, stamped, id) && Stays(stamped, run, id))
             && !(CameOn(stamped, run, id) && Exec(run).value.shifts[id].created <= Exec(stamped).value.clock)
  {
    forall id | id in Exec(run).value.shifts
      ensures !AccountedFor(Exec(run).value, id)
        <==> id !in Exec(counted).value.shifts
             && ((CameOn(counted, stamped, id) && Stays(stamped, run, id))
                 || (CameOn(stamped, run, id) && Exec(run).value.shifts[id].created <= Exec(stamped).value.clock))
    {
      ShiftIsLeftOutIff(counted, stamped, run, c, id);
    }
  }

  // A closer has counted no shift, at time 10.
  lemma CountedAtTen() returns (run: Run<Label>, s: State)
    ensures Exec(run) == Some(s) && s.shifts == map[] && s.clock == 10 && s.job == NEW_JOB && s.crew == map[]
    ensures s.closers == map[0 := Counted(Ask(None, None, None), NEW_JOB, Contract(None, map[]), map[])]
  {
    run, s := Extend(Start, INIT, Tick(10));
    run, s := Extend(run, s, Load(0, Ask(None, None, None)));
    run, s := Extend(run, s, Count(0));
  }

  // A shift clocked on after the count, at the very time that is stamped.
  lemma ShiftMissedBeforeStamp() returns (run: Run<Label>)
    ensures Exec(run).Some? && Exec(run).value.job.closeout.Some? && !AllAccountedFor(Exec(run).value)
  {
    var s: State;
    run, s := CountedAtTen();
    run, s := Extend(run, s, Attach(7, Shift(1, 8.0, None, 10)));
    run, s := Extend(run, s, Stamp(0));
    assert s.closers[0].snapshot.inputs.shifts == map[] && s.closers[0].snapshot.frozenAt == 10;
    run, s := Extend(run, s, Close(0));
    assert !AccountedFor(s, 7);
  }

  // A shift of time 3, moved onto the job at time 20, after it was closed at 10.
  lemma OlderShiftMovedOn() returns (run: Run<Label>)
    ensures Exec(run).Some? && Exec(run).value.job.closeout.Some? && !AllAccountedFor(Exec(run).value)
  {
    var s: State;
    run, s := CountedAtTen();
    run, s := Extend(run, s, Stamp(0));
    assert s.closers[0].snapshot.inputs.shifts == map[] && s.closers[0].snapshot.frozenAt == 10;
    run, s := Extend(run, s, Close(0));
    run, s := Extend(run, s, Tick(20));
    run, s := Extend(run, s, Attach(7, Shift(1, 8.0, Some(3), 3)));
    assert !AccountedFor(s, 7);
  }

  // ---- Live figures of many jobs at once -------------------------------------------------------

  datatype Row = Row(job: Option<nat>, shift: Shift)

  datatype Listed = Listed(id: nat, contract: Contract, row: JobRow)

  function ShiftsOf(rows: map<nat, Row>, job: nat): map<nat, Shift> {
    map id | id in rows && rows[id].job == Some(job) :: rows[id].shift
  }

  // What one job's live figures are computed from, the other jobs not considered: its
  // own shifts, at the crew table's rates.
  ghost predicate OwnView(inputs: Inputs, rows: map<nat, Row>, crew: map<nat, Option<real>>, j: Listed) {
    && (forall id :: id in inputs.shifts <==> id in rows && rows[id].job == Some(j.id))
    && (forall id :: id in inputs.shifts ==> inputs.shifts[id] == rows[id].shift)
    && ShowsWork(inputs, inputs.shifts, crew)
    && inputs.contract == j.contract && inputs.onCostPct == None
    && inputs.revenue == j.row.revenue && inputs.otherCost == j.row.otherCost
  }

  ghost predicate DistinctIds(jobs: seq<Listed>) {
    forall i, k :: 0 <= i < k < |jobs| ==> jobs[i].id != jobs[k].id
  }

  // The shifts fetched for the open jobs listed.
  function Fetched(jobs: seq<Listed>, rows: map<nat, Row>): map<nat, Row> {
    var ids := set j | j in jobs && j.row.closeout.None? :: j.id;
    map id | id in rows && rows[id].job.Some? && rows[id].job.value in ids :: rows[id]
  }

  function Crew(rows: map<nat, Row>, crew: map<nat, Option<real>>): map<nat, Option<real>> {
    RatesFor(crew, map id | id in rows :: rows[id].shift)
  }

  // What the route computes one job's figures from: its fetched shifts, and the rates of
  // everybody fetched.
  function FetchedInputs(jobs: seq<Listed>, rows: map<nat, Row>, crew: map<nat, Option<real>>, j: Listed): Inputs {
    Inputs(ShiftsOf(Fetched(jobs, rows), j.id), Crew(Fetched(jobs, rows), crew),
           j.contract, j.row.revenue, j.row.otherCost, None)
  }

  // The fetched inputs show the job's own work: somebody else's rates among them do no harm.
  lemma {:induction false} FetchedIsOwnView(jobs: seq<Listed>, rows: map<nat, Row>, crew: map<nat, Option<real>>,
      j: Listed)
    requires j in jobs && j.row.closeout.None?
    ensures OwnView(FetchedInputs(jobs, rows, crew, j), rows, crew, j)
  {
    var fetched, inputs := Fetched(jobs, rows), FetchedInputs(jobs, rows, crew, j);
    var all := map id | id in fetched :: fetched[id].shift;
    forall id | id in inputs.shifts
      ensures RateOf(inputs.rates, inputs.shifts[id].crew) == RateOf(crew, inputs.shifts[id].crew)
    {
      assert id in all && all[id].crew == inputs.shifts[id].crew;
    }
  }

  lemma {:induction false} FetchedSuffices<F(!new)>(jobs: seq<Listed>, rows: map<nat, Row>,
      crew: map<nat, Option<real>>, j: Listed, inputs: Inputs, compute: Inputs -> F)
    requires UsesOwnRates(compute) && j in jobs && j.row.closeout.None? && OwnView(inputs, rows, crew, j)
    ensures compute(FetchedInputs(jobs, rows, crew, j)) == compute(inputs)
  {
    var fetched := FetchedInputs(jobs, rows, crew, j);
    FetchedIsOwnView(jobs, rows, crew, j);
    assert fetched.shifts == inputs.shifts;
    SameWorkSameFigures(fetched, inputs, crew, compute);
  }

  // The open jobs among the first n have their figures, and no others.
  ghost predicate Live<F(!new)>(live: map<nat, F>, jobs: seq<Listed>, n: nat, rows: map<nat, Row>,
      crew: map<nat, Option<real>>, compute: Inputs -> F)
    requires n <= |jobs|
  {
    && (forall id :: id in live <==> exists i :: 0 <= i < n && jobs[i].id == id && jobs[i].row.closeout.None?)
    && (forall i :: 0 <= i < n && jobs[i].row.closeout.None? ==>
          jobs[i].id in live && live[jobs[i].id] == compute(FetchedInputs(jobs, rows, crew, jobs[i])))
  }

  lemma LiveNext<F(!new)>(live: map<nat, F>, jobs: seq<Listed>, n: nat, rows: map<nat, Row>,
      crew: map<nat, Option<real>>, compute: Inputs -> F)
    requires n < |jobs| && DistinctIds(jobs) && Live(live, jobs, n, rows, crew, compute)
    ensures var j := jobs[n];
      Live(if j.row.closeout.None? then live[j.id := compute(FetchedInputs(jobs, rows, crew, j))] else live,
           jobs, n + 1, rows, crew, compute)
  {
  }

  // One query for every listed job's shifts and one for their crew give each open
  // job the figures it has on its own, and a closed job none.
  method LiveEconomics<F(!new)>(jobs: seq<Listed>, rows: map<nat, Row>, crew: map<nat, Option<real>>,
      compute: Inputs -> F)
    returns (live: map<nat, F>)
    requires DistinctIds(jobs) && UsesOwnRates(compute)
    ensures forall id :: id in live <==> exists i :: 0 <= i < |jobs| && jobs[i].id == id && jobs[i].row.closeout.None?
    ensures forall i, inputs ::
              0 <= i < |jobs| && jobs[i].row.closeout.None? && OwnView(inputs, rows, crew, jobs[i]) ==>
                jobs[i].id in live && live[jobs[i].id] == compute(inputs)
  {
    live := map[];
    var fetched := Fetched(jobs, rows);
    var rates := Crew(fetched, crew);
    for n := 0 to |jobs|
      invariant Live(live, jobs, n, rows, crew, compute)
    {
      var j := jobs[n];
      LiveNext(live, jobs, n, rows, crew, compute);
      if j.row.closeout.None? {
        var inputs := Inputs(ShiftsOf(fetched, j.id), rates, j.contract, j.row.revenue, j.row.otherCost, None);
        live := live[j.id := compute(inputs)];
      }
    }
    forall i, inputs | 0 <= i < |jobs| && jobs[i].row.closeout.None? && OwnView(inputs, rows, crew, jobs[i])
      ensures jobs[i].id in live && live[jobs[i].id] == compute(inputs)
    {
      FetchedSuffices(jobs, rows, crew, jobs[i], inputs, compute);
    }
  }
}
