/** The bounded worker pool of native/copy.go: an enqueuer, workers, a buffered result
    channel, a closer and a collector, under a context that may be cancelled from outside
    at any moment. A run is any sequence of enabled actions. */
module CopyPool {
  import opened Strings
  import opened Models
  import opened Quoting
  import opened JobEvents
  import opened Tallies

  /** A worker's SyncResult for one table and whether it came with an error. */
  datatype TableResult = TableResult(tally: Tally, failed: bool)

  /** Where copyTableWithFactories is with one table. */
  datatype Phase =
    | Fetched
    | SourceOpened
    | BothOpened
    | Copying(left: nat, bytes: nat)
    | ClosingTarget(outcome: TableResult)
    | Finished(outcome: TableResult)

  datatype Job =
    | Queued
    | Held(worker: nat, phase: Phase)
    | InChannel(result: TableResult)
    | Collected(result: TableResult)

  datatype Worker = Idle | Holding(job: nat) | Failing | Exited(early: bool)

  /** Connections one job opened and how often each was closed. */
  datatype Ledger = Ledger(sourceOpened: bool, sourceCloses: nat, targetOpened: bool, targetCloses: nat)

  datatype PoolEvent = PoolEvent(job: nat, event: JobEvent)

  datatype Pool = Pool(
    tables: seq<Table>,
    budgets: seq<nat>,      // bound on the progress events of each table; every stream is finite
    jobs: seq<Job>,
    ledgers: seq<Ledger>,
    workers: seq<Worker>,
    next: nat,              // jobs handed to workers so far
    jobsOpen: bool,         // the enqueuer is running
    channel: seq<nat>,      // buffered results, by job
    channelOpen: bool,
    collecting: bool,
    firstErr: Option<nat>,
    outer: bool,            // the caller's context is cancelled
    cancelled: bool,        // the pool's own context is cancelled
    trace: seq<PoolEvent>
  )

  /** What copyTableWithFactories and CopyTable do with one table. */
  datatype Step =
    | OpenSource(ok: bool)
    | OpenTarget(ok: bool)
    | BeginCopy
    | Progress(bytes: nat)
    | CopyEnds(rows: nat)
    | CopyFails(rows: nat, bytes: nat)
    | CloseTarget(ok: bool)

  datatype Action =
    | Deliver(w: nat)
    | StopEnqueue
    | CloseJobs
    | Work(w: nat, step: Step)
    | Send(w: nat)
    | CancelAndExit(w: nat)
    | Exit(w: nat)
    | CloseChannel
    | Receive
    | Finish
    | OuterCancel

  function FailedResult(rows: nat, bytes: nat): TableResult {
    TableResult(Tally(0, rows, bytes), true)
  }

  const UNOPENED := Ledger(false, 0, false, 0)
  const BOTH_CLOSED := Ledger(true, 1, true, 1)

  function Start(tables: seq<Table>, budgets: seq<nat>, workers: nat, outer: bool): Pool {
    Pool(tables, budgets, seq(|tables|, _ => Queued), seq(|tables|, _ => UNOPENED),
         seq(workers, _ => Idle), 0, true, [], true, true, None, outer, outer, [])
  }

  // ---------- one job ----------

  predicate StepAllowed(budget: nat, phase: Phase, step: Step) {
    match step
    case OpenSource(_) => phase.Fetched?
    case OpenTarget(_) => phase.SourceOpened?
    case BeginCopy => phase.BothOpened?
    case Progress(bytes) => phase.Copying? && phase.left > 0 && bytes >= phase.bytes
    case CopyEnds(_) => phase.Copying? && phase.left < budget
    case CopyFails(_, bytes) => phase.Copying? && bytes >= phase.bytes
    case CloseTarget(_) => phase.ClosingTarget?
  }

  datatype Effect = Effect(phase: Phase, ledger: Ledger, event: Option<JobEvent>)

  /** The copy itself closes the source; a name that cannot be quoted stops it before that. */
  function AfterStep(table: Table, budget: nat, phase: Phase, ledger: Ledger, step: Step): Effect
    requires StepAllowed(budget, phase, step)
  {
    match step
    case OpenSource(ok) =>
      if ok then Effect(SourceOpened, ledger.(sourceOpened := true), None)
      else Effect(Finished(FailedResult(0, 0)), ledger, None)
    case OpenTarget(ok) =>
      if ok then Effect(BothOpened, ledger.(targetOpened := true), None)
      else Effect(Finished(FailedResult(0, 0)), ledger.(sourceCloses := ledger.sourceCloses + 1), None)
    case BeginCopy =>
      if QuoteQualified(table).Ok? then Effect(Copying(budget, 0), ledger, Some(CopyStart))
      else Effect(ClosingTarget(FailedResult(0, 0)), ledger, None)
    case Progress(bytes) => Effect(Copying(phase.left - 1, bytes), ledger, Some(CopyProgress(bytes)))
    case CopyEnds(rows) =>
      Effect(ClosingTarget(TableResult(Tally(1, rows, phase.bytes), false)),
             ledger.(sourceCloses := ledger.sourceCloses + 1), Some(CopyDone(phase.bytes, rows)))
    case CopyFails(rows, bytes) =>
      Effect(ClosingTarget(FailedResult(rows, bytes)), ledger.(sourceCloses := ledger.sourceCloses + 1), None)
    case CloseTarget(ok) =>
      Effect(Finished(phase.outcome.(failed := phase.outcome.failed || !ok)),
             ledger.(targetCloses := ledger.targetCloses + 1), None)
  }

  // ---------- the pool ----------

  predicate Sized(s: Pool) {
    |s.jobs| == |s.tables| == |s.ledgers| == |s.budgets|
  }

  predicate HoldsJob(s: Pool, w: nat) {
    w < |s.workers| && s.workers[w].Holding? && s.workers[w].job < |s.jobs| && s.jobs[s.workers[w].job].Held?
  }

  function PhaseOf(s: Pool, w: nat): Phase
    requires HoldsJob(s, w)
  {
    s.jobs[s.workers[w].job].phase
  }

  predicate AllExited(s: Pool) {
    forall w :: 0 <= w < |s.workers| ==> s.workers[w].Exited?
  }

  predicate Enabled(s: Pool, a: Action) {
    Sized(s) && match a
    case Deliver(w) => s.jobsOpen && s.next < |s.jobs| && w < |s.workers| && s.workers[w].Idle?
    case StopEnqueue => s.jobsOpen && s.next < |s.jobs| && s.cancelled
    case CloseJobs => s.jobsOpen && s.next == |s.jobs|
    case Work(w, step) => HoldsJob(s, w) && StepAllowed(s.budgets[s.workers[w].job], PhaseOf(s, w), step)
    case Send(w) => HoldsJob(s, w) && PhaseOf(s, w).Finished? && |s.channel| < |s.tables|
    case CancelAndExit(w) => w < |s.workers| && s.workers[w].Failing?
    case Exit(w) => w < |s.workers| && s.workers[w].Idle? && !s.jobsOpen
    case CloseChannel => s.channelOpen && AllExited(s)
    case Receive => s.collecting && s.channel != [] && s.channel[0] < |s.jobs| && s.jobs[s.channel[0]].InChannel?
    case Finish => s.collecting && s.channel == [] && !s.channelOpen
    case OuterCancel => !s.outer
  }

  function Next(s: Pool, a: Action): (t: Pool)
    requires Enabled(s, a)
    ensures t.tables == s.tables && t.budgets == s.budgets && |t.workers| == |s.workers|
  {
    match a
    case Deliver(w) =>
      s.(jobs := s.jobs[s.next := Held(w, Fetched)], workers := s.workers[w := Holding(s.next)], next := s.next + 1)
    case StopEnqueue => s.(jobsOpen := false)
    case CloseJobs => s.(jobsOpen := false)
    case Work(w, step) =>
      var j := s.workers[w].job;
      var effect := AfterStep(s.tables[j], s.budgets[j], PhaseOf(s, w), s.ledgers[j], step);
      s.(jobs := s.jobs[j := Held(w, effect.phase)], ledgers := s.ledgers[j := effect.ledger],
         trace := if effect.event.Some? then s.trace + [PoolEvent(j, effect.event.value)] else s.trace)
    case Send(w) =>
      var j := s.workers[w].job;
      var result := PhaseOf(s, w).outcome;
      s.(jobs := s.jobs[j := InChannel(result)], channel := s.channel + [j],
         workers := s.workers[w := if result.failed then Failing else Idle])
    case CancelAndExit(w) => s.(workers := s.workers[w := Exited(true)], cancelled := true)
    case Exit(w) => s.(workers := s.workers[w := Exited(false)])
    case CloseChannel => s.(channelOpen := false)
    case Receive =>
      var j := s.channel[0];
      var result := s.jobs[j].result;
      var first := result.failed && s.firstErr.None?;
      s.(jobs := s.jobs[j := Collected(result)], channel := s.channel[1..],
         firstErr := if first then Some(j) else s.firstErr, cancelled := s.cancelled || first)
    case Finish => s.(collecting := false)
    case OuterCancel => s.(outer := true, cancelled := true)
  }

  // ---------- every job has one place ----------

  ghost predicate LinkInv(s: Pool) {
    && Sized(s) && s.next <= |s.jobs| && |s.workers| > 0
    && (forall j :: 0 <= j < |s.jobs| ==> (s.jobs[j].Queued? <==> j >= s.next))
    && (forall w :: 0 <= w < |s.workers| && s.workers[w].Holding? ==>
          s.workers[w].job < |s.jobs| && s.jobs[s.workers[w].job].Held? && s.jobs[s.workers[w].job].worker == w)
    && (forall j :: 0 <= j < |s.jobs| && s.jobs[j].Held? ==>
          s.jobs[j].worker < |s.workers| && s.workers[s.jobs[j].worker] == Holding(j))
  }

  ghost predicate ChannelInv(s: Pool) {
    && Distinct(s.channel)
    && (forall j :: j in s.channel ==> j < |s.jobs| && s.jobs[j].InChannel?)
    && (forall j :: 0 <= j < |s.jobs| && s.jobs[j].InChannel? ==> j in s.channel)
  }

  /** The job reported an error and the worker has let go of it. */
  predicate ReportedFailure(job: Job) {
    (job.InChannel? || job.Collected?) && job.result.failed
  }

  ghost predicate SomeFailure(s: Pool) {
    exists j :: 0 <= j < |s.jobs| && ReportedFailure(s.jobs[j])
  }

  /** Who may have stopped, and why. */
  ghost predicate FlowInv(s: Pool) {
    && (!s.channelOpen ==> AllExited(s))
    && (!s.jobsOpen ==> s.next == |s.jobs| || s.cancelled)
    && (forall w :: 0 <= w < |s.workers| && s.workers[w].Exited? ==> if s.workers[w].early then s.cancelled else !s.jobsOpen)
    && (!s.collecting ==> !s.channelOpen && s.channel == [])
    && (s.outer ==> s.cancelled)
    && (s.cancelled ==> s.outer || SomeFailure(s))
    && (forall w :: 0 <= w < |s.workers| && s.workers[w].Failing? ==> SomeFailure(s))
    && (s.firstErr.None? ==> forall j :: 0 <= j < |s.jobs| && s.jobs[j].Collected? ==> !s.jobs[j].result.failed)
    && (s.firstErr.Some? ==> s.firstErr.value < |s.jobs| && s.jobs[s.firstErr.value].Collected? && s.jobs[s.firstErr.value].result.failed)
  }

  /** Actions that do not touch any job. */
  predicate LeavesJobs(a: Action) {
    !a.Work? && !a.Deliver? && !a.Send? && !a.Receive?
  }

  lemma JobsLeft(s: Pool, a: Action)
    requires Enabled(s, a) && LeavesJobs(a)
    ensures var t := Next(s, a);
      && t.jobs == s.jobs && t.ledgers == s.ledgers && t.trace == s.trace && t.channel == s.channel && t.next == s.next
      && t.tables == s.tables && t.budgets == s.budgets && t.firstErr == s.firstErr
    ensures !a.Exit? && !a.CancelAndExit? ==> Next(s, a).workers == s.workers
    ensures a.Exit? ==> Next(s, a).workers == s.workers[a.w := Exited(false)] && !s.workers[a.w].Holding?
    ensures a.CancelAndExit? ==> Next(s, a).workers == s.workers[a.w := Exited(true)] && !s.workers[a.w].Holding?
  {
    hide AfterStep, StepAllowed, QuoteQualified;
  }

  lemma LinkNext(s: Pool, a: Action)
    requires LinkInv(s) && ChannelInv(s) && Enabled(s, a)
    ensures LinkInv(Next(s, a))
  {
    hide LinkInv, Enabled, Next;
    match a {
      case Deliver(w) => LinkDeliver(s, w);
      case Send(w) => LinkSend(s, w);
      case Receive => LinkReceive(s);
      case Work(w, step) => LinkWork(s, w, step);
      case _ => LinkRest(s, a);
    }
  }

  lemma LinkWork(s: Pool, w: nat, step: Step)
    requires LinkInv(s) && Enabled(s, Work(w, step))
    ensures LinkInv(Next(s, Work(w, step)))
  {
    hide AfterStep, StepAllowed, QuoteQualified;
  }

  lemma LinkRest(s: Pool, a: Action)
    requires LinkInv(s) && Enabled(s, a) && LeavesJobs(a)
    ensures LinkInv(Next(s, a))
  {
    hide Next, Enabled;
    JobsLeft(s, a);
  }

  lemma LinkDeliver(s: Pool, w: nat)
    requires LinkInv(s) && Enabled(s, Deliver(w))
    ensures LinkInv(Next(s, Deliver(w)))
  {
  }

  lemma LinkSend(s: Pool, w: nat)
    requires LinkInv(s) && Enabled(s, Send(w))
    ensures LinkInv(Next(s, Send(w)))
  {
  }

  lemma LinkReceive(s: Pool)
    requires LinkInv(s) && Enabled(s, Receive)
    ensures LinkInv(Next(s, Receive))
  {
  }

  lemma ChannelNext(s: Pool, a: Action)
    requires LinkInv(s) && ChannelInv(s) && Enabled(s, a)
    ensures ChannelInv(Next(s, a))
  {
    hide LinkInv, ChannelInv, Enabled, Next;
    match a {
      case Deliver(w) => ChannelDeliver(s, w);
      case Send(w) => ChannelSend(s, w);
      case Receive => ChannelReceive(s);
      case Work(w, step) => ChannelWork(s, w, step);
      case _ => ChannelRest(s, a);
    }
  }

  lemma ChannelWork(s: Pool, w: nat, step: Step)
    requires LinkInv(s) && ChannelInv(s) && Enabled(s, Work(w, step))
    ensures ChannelInv(Next(s, Work(w, step)))
  {
    hide AfterStep, StepAllowed, QuoteQualified;
  }

  lemma ChannelRest(s: Pool, a: Action)
    requires ChannelInv(s) && Enabled(s, a) && LeavesJobs(a)
    ensures ChannelInv(Next(s, a))
  {
    hide Next, Enabled;
    JobsLeft(s, a);
  }

  lemma ChannelDeliver(s: Pool, w: nat)
    requires LinkInv(s) && ChannelInv(s) && Enabled(s, Deliver(w))
    ensures ChannelInv(Next(s, Deliver(w)))
  {
  }

  lemma ChannelSend(s: Pool, w: nat)
    requires LinkInv(s) && ChannelInv(s) && Enabled(s, Send(w))
    ensures ChannelInv(Next(s, Send(w)))
  {
    assert s.workers[w].job !in s.channel;
  }

  lemma ChannelReceive(s: Pool)
    requires LinkInv(s) && ChannelInv(s) && Enabled(s, Receive)
    ensures ChannelInv(Next(s, Receive))
  {
    var t := Next(s, Receive);
    assert s.channel == [s.channel[0]] + s.channel[1..];
    assert s.channel[0] !in s.channel[1..];
    forall j | j in t.channel ensures j < |t.jobs| && t.jobs[j].InChannel? {
      assert j in s.channel;
    }
  }

  /** A reported failure stays reported. */
  lemma FailureStays(s: Pool, a: Action)
    requires LinkInv(s) && Enabled(s, a)
    ensures SomeFailure(s) ==> SomeFailure(Next(s, a))
  {
    if SomeFailure(s) {
      var j :| 0 <= j < |s.jobs| && ReportedFailure(s.jobs[j]);
      hide AfterStep, StepAllowed, QuoteQualified;
      assert ReportedFailure(Next(s, a).jobs[j]);
    }
  }

  lemma FlowNext(s: Pool, a: Action)
    requires LinkInv(s) && ChannelInv(s) && FlowInv(s) && Enabled(s, a)
    ensures FlowInv(Next(s, a))
  {
    FailureStays(s, a);
    hide Next, Enabled, LinkInv, ChannelInv, FlowInv;
    match a {
      case Send(w) => FlowSend(s, w);
      case Receive => FlowReceive(s);
      case Work(w, step) => FlowWork(s, w, step);
      case _ => FlowRest(s, a);
    }
  }

  lemma FlowWork(s: Pool, w: nat, step: Step)
    requires LinkInv(s) && FlowInv(s) && Enabled(s, Work(w, step))
    requires SomeFailure(s) ==> SomeFailure(Next(s, Work(w, step)))
    ensures FlowInv(Next(s, Work(w, step)))
  {
    hide LinkInv, SomeFailure, AfterStep, StepAllowed, QuoteQualified;
  }

  lemma FlowRest(s: Pool, a: Action)
    requires LinkInv(s) && ChannelInv(s) && FlowInv(s) && Enabled(s, a) && !a.Work? && !a.Send? && !a.Receive?
    requires SomeFailure(s) ==> SomeFailure(Next(s, a))
    ensures FlowInv(Next(s, a))
  {
    hide ChannelInv, SomeFailure, AfterStep, StepAllowed, QuoteQualified;
    if !a.Deliver? {
      hide LinkInv;
    }
  }

  lemma FlowSend(s: Pool, w: nat)
    requires LinkInv(s) && FlowInv(s) && Enabled(s, Send(w))
    requires SomeFailure(s) ==> SomeFailure(Next(s, Send(w)))
    ensures FlowInv(Next(s, Send(w)))
  {
    var t := Next(s, Send(w));
    if PhaseOf(s, w).outcome.failed {
      assert ReportedFailure(t.jobs[s.workers[w].job]);
    }
    hide SomeFailure;
  }

  lemma FlowReceive(s: Pool)
    requires LinkInv(s) && FlowInv(s) && Enabled(s, Receive)
    requires SomeFailure(s) ==> SomeFailure(Next(s, Receive))
    ensures FlowInv(Next(s, Receive))
  {
    var t := Next(s, Receive);
    if s.jobs[s.channel[0]].result.failed {
      assert ReportedFailure(t.jobs[s.channel[0]]);
    }
    hide SomeFailure;
  }

  // ---------- the connections and events of one job ----------

  predicate Quotable(table: Table) {
    QuoteQualified(table).Ok?
  }

  /** Every connection that was opened has been closed exactly once. */
  predicate Balanced(l: Ledger) {
    l.sourceCloses == (if l.sourceOpened then 1 else 0) && l.targetCloses == (if l.targetOpened then 1 else 0)
  }

  /** A finished job: nothing was opened, only the source was, or both were; then the source
      was closed by the copy, which never started for a name that cannot be quoted. */
  predicate Settled(table: Table, l: Ledger) {
    || l == UNOPENED
    || l == Ledger(true, 1, false, 0)
    || l == Ledger(true, if Quotable(table) then 1 else 0, true, 1)
  }

  predicate LedgerOf(table: Table, job: Job, l: Ledger) {
    match job
    case Queued => l == UNOPENED
    case Held(_, Fetched) => l == UNOPENED
    case Held(_, SourceOpened) => l == Ledger(true, 0, false, 0)
    case Held(_, BothOpened) => l == Ledger(true, 0, true, 0)
    case Held(_, Copying(_, _)) => l == Ledger(true, 0, true, 0) && Quotable(table)
    case Held(_, ClosingTarget(outcome)) =>
      l == Ledger(true, if Quotable(table) then 1 else 0, true, 0) && (outcome.tally.tables > 0 ==> Quotable(table))
    case Held(_, Finished(outcome)) => SettledAs(table, outcome, l)
    case InChannel(outcome) => SettledAs(table, outcome, l)
    case Collected(outcome) => SettledAs(table, outcome, l)
  }

  /** A copied table had both connections, each closed once. */
  predicate SettledAs(table: Table, outcome: TableResult, l: Ledger) {
    Settled(table, l) && (outcome.tally.tables > 0 ==> l == BOTH_CLOSED)
  }

  /** What a job has reported, given what the observer saw of it: a counted table was seen from
      start to done; anything else never reported done. */
  ghost predicate OutcomeEvents(outcome: TableResult, events: seq<JobEvent>) {
    if outcome.tally.tables == 0 then outcome.failed && (events == [] || InFlight(events, outcome.tally.bytes))
    else outcome.tally.tables == 1 && CompleteJob(events, outcome.tally.bytes, outcome.tally.rows)
  }

  ghost predicate EventsOf(budget: nat, job: Job, events: seq<JobEvent>) {
    match job
    case Queued => events == []
    case Held(_, Fetched) => events == []
    case Held(_, SourceOpened) => events == []
    case Held(_, BothOpened) => events == []
    case Held(_, Copying(left, bytes)) => InFlight(events, bytes) && (left < budget ==> LastProgress(events, bytes))
    case Held(_, ClosingTarget(outcome)) => OutcomeEvents(outcome, events)
    case Held(_, Finished(outcome)) => OutcomeEvents(outcome, events)
    case InChannel(result) => OutcomeEvents(result, events)
    case Collected(result) => OutcomeEvents(result, events)
  }

  function JobTally(job: Job): Tally {
    match job
    case Held(_, ClosingTarget(outcome)) => Counted(outcome)
    case Held(_, Finished(outcome)) => Counted(outcome)
    case InChannel(result) => Counted(result)
    case Collected(result) => Counted(result)
    case _ => ZERO
  }

  /** A result counts towards the done events only if its table was copied. */
  function Counted(r: TableResult): Tally {
    if r.tally.tables == 1 then r.tally else ZERO
  }

  function EventTally(e: JobEvent): Tally {
    if e.CopyDone? then Tally(1, e.rows, e.bytes) else ZERO
  }

  lemma StepKeepsLedger(table: Table, budget: nat, w: nat, phase: Phase, ledger: Ledger, step: Step)
    requires StepAllowed(budget, phase, step) && LedgerOf(table, Held(w, phase), ledger)
    ensures var e := AfterStep(table, budget, phase, ledger, step); LedgerOf(table, Held(w, e.phase), e.ledger)
  {
    hide QuoteQualified;
  }

  function Logged(events: seq<JobEvent>, event: Option<JobEvent>): seq<JobEvent> {
    if event.Some? then events + [event.value] else events
  }

  lemma StepKeepsEvents(table: Table, budget: nat, w: nat, phase: Phase, ledger: Ledger, step: Step, events: seq<JobEvent>)
    requires StepAllowed(budget, phase, step) && EventsOf(budget, Held(w, phase), events)
    ensures var e := AfterStep(table, budget, phase, ledger, step);
            EventsOf(budget, Held(w, e.phase), Logged(events, e.event))
  {
  }

  lemma StepKeepsTally(table: Table, budget: nat, w: nat, phase: Phase, ledger: Ledger, step: Step)
    requires StepAllowed(budget, phase, step)
    ensures var e := AfterStep(table, budget, phase, ledger, step);
            JobTally(Held(w, e.phase)) == Plus(JobTally(Held(w, phase)), if e.event.Some? then EventTally(e.event.value) else ZERO)
  {
    hide QuoteQualified, Plus;
    var e := AfterStep(table, budget, phase, ledger, step);
    PlusZero(JobTally(Held(w, phase)));
    PlusZero(if e.event.Some? then EventTally(e.event.value) else ZERO);
  }

  // ---------- the same over the whole trace ----------

  /** The events of one job, in order. */
  function Project(trace: seq<PoolEvent>, j: nat): seq<JobEvent> {
    if trace == [] then []
    else
      var before := Project(trace[..|trace| - 1], j);
      var last := trace[|trace| - 1];
      if last.job == j then before + [last.event] else before
  }

  lemma ProjectAppend(trace: seq<PoolEvent>, e: PoolEvent, j: nat)
    ensures Project(trace + [e], j) == if e.job == j then Project(trace, j) + [e.event] else Project(trace, j)
  {
    assert (trace + [e])[..|trace|] == trace;
  }

  function TraceTallies(trace: seq<PoolEvent>): seq<Tally> {
    seq(|trace|, i requires 0 <= i < |trace| => EventTally(trace[i].event))
  }

  function JobTallies(jobs: seq<Job>): seq<Tally> {
    seq(|jobs|, i requires 0 <= i < |jobs| => JobTally(jobs[i]))
  }

  ghost predicate HistoryInv(s: Pool) {
    && Sized(s)
    && (forall i :: 0 <= i < |s.trace| ==> s.trace[i].job < |s.jobs|)
    && (forall j {:trigger s.jobs[j]} :: 0 <= j < |s.jobs| ==>
          EventsOf(s.budgets[j], s.jobs[j], Project(s.trace, j)) && LedgerOf(s.tables[j], s.jobs[j], s.ledgers[j]))
  }

  /** Done events and counted results always add up to the same tables, rows and bytes. */
  ghost predicate TallyInv(s: Pool) {
    Sum(JobTallies(s.jobs)) == Sum(TraceTallies(s.trace))
  }

  lemma HistoryNext(s: Pool, a: Action)
    requires LinkInv(s) && HistoryInv(s) && Enabled(s, a)
    ensures HistoryInv(Next(s, a))
  {
    var t := Next(s, a);
    hide AfterStep, StepAllowed, EventsOf, LedgerOf, Project;
    match a {
      case Work(w, step) => HistoryWork(s, w, step);
      case Deliver(w) => MovedJob(s, t, s.next);
      case Send(w) => MovedJob(s, t, s.workers[w].job);
      case Receive => MovedJob(s, t, s.channel[0]);
      case _ => assert t.jobs == s.jobs && t.trace == s.trace && t.ledgers == s.ledgers;
    }
  }

  /** Handing a job over, sending and collecting a result change its place, not its story. */
  lemma MovedJob(s: Pool, t: Pool, j: nat)
    requires HistoryInv(s) && Sized(t) && j < |s.jobs| && |t.jobs| == |s.jobs|
    requires t.jobs == s.jobs[j := t.jobs[j]] && t.trace == s.trace && t.ledgers == s.ledgers
    requires t.tables == s.tables && t.budgets == s.budgets
    requires (s.jobs[j].Queued? && t.jobs[j].Held? && t.jobs[j].phase.Fetched?)
          || (s.jobs[j].Held? && s.jobs[j].phase.Finished? && t.jobs[j] == InChannel(s.jobs[j].phase.outcome))
          || (s.jobs[j].InChannel? && t.jobs[j] == Collected(s.jobs[j].result))
    ensures HistoryInv(t)
    ensures JobTally(t.jobs[j]) == JobTally(s.jobs[j])
  {
    hide Project, InFlight, CompleteJob, QuoteQualified;
    assert EventsOf(s.budgets[j], s.jobs[j], Project(s.trace, j)) && LedgerOf(s.tables[j], s.jobs[j], s.ledgers[j]);
    forall k | 0 <= k < |t.jobs|
      ensures EventsOf(t.budgets[k], t.jobs[k], Project(t.trace, k)) && LedgerOf(t.tables[k], t.jobs[k], t.ledgers[k])
    {
      assert k != j ==> t.jobs[k] == s.jobs[k];
    }
  }

  lemma HistoryWork(s: Pool, w: nat, step: Step)
    requires LinkInv(s) && HistoryInv(s) && Enabled(s, Work(w, step))
    ensures HistoryInv(Next(s, Work(w, step)))
  {
    hide AfterStep, StepAllowed, EventsOf, LedgerOf, Project;
    var t := Next(s, Work(w, step));
    var j := s.workers[w].job;
    var phase := PhaseOf(s, w);
    var e := AfterStep(s.tables[j], s.budgets[j], phase, s.ledgers[j], step);
    assert s.jobs[j] == Held(w, phase);
    StepKeepsLedger(s.tables[j], s.budgets[j], w, phase, s.ledgers[j], step);
    StepKeepsEvents(s.tables[j], s.budgets[j], w, phase, s.ledgers[j], step, Project(s.trace, j));
    forall k | 0 <= k < |t.jobs|
      ensures EventsOf(t.budgets[k], t.jobs[k], Project(t.trace, k)) && LedgerOf(t.tables[k], t.jobs[k], t.ledgers[k])
    {
      if e.event.Some? {
        ProjectAppend(s.trace, PoolEvent(j, e.event.value), k);
      }
      assert k != j ==> t.jobs[k] == s.jobs[k];
    }
  }

  lemma TalliesUpdate(jobs: seq<Job>, j: nat, job: Job, delta: Tally)
    requires j < |jobs| && JobTally(job) == Plus(JobTally(jobs[j]), delta)
    ensures Sum(JobTallies(jobs[j := job])) == Plus(Sum(JobTallies(jobs)), delta)
  {
    var xs := JobTallies(jobs);
    assert JobTallies(jobs[j := job]) == xs[j := JobTally(job)];
    SumUpdate(xs, j, JobTally(job));
    hide Sum, JobTally;
  }

  lemma Unmoved(jobs: seq<Job>, j: nat, job: Job)
    requires j < |jobs| && JobTally(job) == JobTally(jobs[j])
    ensures Sum(JobTallies(jobs[j := job])) == Sum(JobTallies(jobs))
  {
    assert JobTallies(jobs[j := job]) == JobTallies(jobs);
  }

  lemma TallyNext(s: Pool, a: Action)
    requires LinkInv(s) && HistoryInv(s) && TallyInv(s) && Enabled(s, a)
    ensures TallyInv(Next(s, a))
  {
    hide LinkInv, HistoryInv, TallyInv, Enabled, Next;
    match a {
      case Work(w, step) => TallyWork(s, w, step);
      case Deliver(w) => TallyDeliver(s, w);
      case Send(w) => TallySend(s, w);
      case Receive => TallyReceive(s);
      case _ => TallyRest(s, a);
    }
  }

  lemma TallyDeliver(s: Pool, w: nat)
    requires LinkInv(s) && TallyInv(s) && Enabled(s, Deliver(w))
    ensures TallyInv(Next(s, Deliver(w)))
  {
    hide Sum, JobTallies, TraceTallies;
    Unmoved(s.jobs, s.next, Held(w, Fetched));
  }

  lemma TallySend(s: Pool, w: nat)
    requires LinkInv(s) && TallyInv(s) && Enabled(s, Send(w))
    ensures TallyInv(Next(s, Send(w)))
  {
    hide Sum, JobTallies, TraceTallies;
    Unmoved(s.jobs, s.workers[w].job, InChannel(PhaseOf(s, w).outcome));
  }

  lemma TallyReceive(s: Pool)
    requires TallyInv(s) && Enabled(s, Receive)
    ensures TallyInv(Next(s, Receive))
  {
    hide Sum, JobTallies, TraceTallies;
    Unmoved(s.jobs, s.channel[0], Collected(s.jobs[s.channel[0]].result));
  }

  lemma TallyRest(s: Pool, a: Action)
    requires TallyInv(s) && Enabled(s, a) && LeavesJobs(a)
    ensures TallyInv(Next(s, a))
  {
    hide Next, Enabled, Sum, JobTallies, TraceTallies;
    JobsLeft(s, a);
  }

  lemma TallyWork(s: Pool, w: nat, step: Step)
    requires LinkInv(s) && TallyInv(s) && Enabled(s, Work(w, step))
    ensures TallyInv(Next(s, Work(w, step)))
  {
    var t := Next(s, Work(w, step));
    var j := s.workers[w].job;
    var phase := PhaseOf(s, w);
    var e := AfterStep(s.tables[j], s.budgets[j], phase, s.ledgers[j], step);
    assert s.jobs[j] == Held(w, phase);
    assert t.jobs == s.jobs[j := Held(w, e.phase)];
    assert t.trace == if e.event.Some? then s.trace + [PoolEvent(j, e.event.value)] else s.trace;
    hide LinkInv, Next, AfterStep, StepAllowed, Sum, JobTally, JobTallies, TraceTallies, EventTally, Plus, QuoteQualified;
    StepKeepsTally(s.tables[j], s.budgets[j], w, phase, s.ledgers[j], step);
    TallyStep(s.jobs, s.trace, j, Held(w, e.phase), e.event);
  }

  lemma TallyStep(jobs: seq<Job>, trace: seq<PoolEvent>, j: nat, job: Job, event: Option<JobEvent>)
    requires j < |jobs| && Sum(JobTallies(jobs)) == Sum(TraceTallies(trace))
    requires JobTally(job) == Plus(JobTally(jobs[j]), if event.Some? then EventTally(event.value) else ZERO)
    ensures Sum(JobTallies(jobs[j := job])) == Sum(TraceTallies(if event.Some? then trace + [PoolEvent(j, event.value)] else trace))
  {
    hide Sum, JobTally, EventTally, Plus;
    if event.Some? {
      TalliesUpdate(jobs, j, job, EventTally(event.value));
      SumAppend(TraceTallies(trace), EventTally(event.value));
      assert TraceTallies(trace + [PoolEvent(j, event.value)]) == TraceTallies(trace) + [EventTally(event.value)];
    } else {
      PlusZero(JobTally(jobs[j]));
      Unmoved(jobs, j, job);
    }
  }

  // ---------- the invariant of every run ----------

  ghost predicate Inv(s: Pool) {
    LinkInv(s) && ChannelInv(s) && FlowInv(s) && HistoryInv(s) && TallyInv(s)
  }

  lemma TallyStart(tables: seq<Table>, budgets: seq<nat>, workers: nat, outer: bool)
    requires |budgets| == |tables|
    ensures TallyInv(Start(tables, budgets, workers, outer))
  {
    var s := Start(tables, budgets, workers, outer);
    assert JobTallies(s.jobs) == seq(|tables|, _ => ZERO);
    SumZeros(|tables|);
    assert TraceTallies(s.trace) == [];
  }

  lemma InvStart(tables: seq<Table>, budgets: seq<nat>, workers: nat, outer: bool)
    requires |budgets| == |tables| && workers > 0
    ensures Inv(Start(tables, budgets, workers, outer))
  {
    hide TallyInv, QuoteQualified;
    TallyStart(tables, budgets, workers, outer);
  }

  lemma InvNext(s: Pool, a: Action)
    requires Inv(s) && Enabled(s, a)
    ensures Inv(Next(s, a))
  {
    hide LinkInv, ChannelInv, FlowInv, HistoryInv, TallyInv, Next, Enabled;
    LinkNext(s, a);
    ChannelNext(s, a);
    FlowNext(s, a);
    HistoryNext(s, a);
    TallyNext(s, a);
  }

  // ---------- termination ----------

  function JobWork(job: Job, budget: nat): nat {
    match job
    case Queued => budget + 10
    case Held(_, Fetched) => budget + 9
    case Held(_, SourceOpened) => budget + 8
    case Held(_, BothOpened) => budget + 7
    case Held(_, Copying(left, _)) => left + 6
    case Held(_, ClosingTarget(_)) => 5
    case Held(_, Finished(_)) => 4
    case InChannel(_) => 2
    case Collected(_) => 0
  }

  function WorkerWork(worker: Worker): nat {
    match worker
    case Idle => 2
    case Holding(_) => 2
    case Failing => 1
    case Exited(_) => 0
  }

  function JobWorks(jobs: seq<Job>, budgets: seq<nat>): seq<nat>
    requires |jobs| == |budgets|
  {
    seq(|jobs|, i requires 0 <= i < |jobs| => JobWork(jobs[i], budgets[i]))
  }

  function WorkerWorks(workers: seq<Worker>): seq<nat> {
    seq(|workers|, i requires 0 <= i < |workers| => WorkerWork(workers[i]))
  }

  function Flag(b: bool): nat {
    if b then 1 else 0
  }

  /** The work left in the whole pool. */
  function WorkLeft(s: Pool): nat
    requires Sized(s)
  {
    SumOf(JobWorks(s.jobs, s.budgets)) + SumOf(WorkerWorks(s.workers))
    + Flag(s.jobsOpen) + Flag(s.channelOpen) + Flag(s.collecting) + Flag(!s.outer)
  }

  lemma JobMoves(jobs: seq<Job>, budgets: seq<nat>, j: nat, job: Job)
    requires |jobs| == |budgets| && j < |jobs|
    ensures SumOf(JobWorks(jobs[j := job], budgets)) + JobWork(jobs[j], budgets[j]) == SumOf(JobWorks(jobs, budgets)) + JobWork(job, budgets[j])
  {
    hide SumOf, JobWork;
    var xs := JobWorks(jobs, budgets);
    assert JobWorks(jobs[j := job], budgets) == xs[j := JobWork(job, budgets[j])];
    SumOfUpdate(xs, j, JobWork(job, budgets[j]));
  }

  lemma WorkerMoves(workers: seq<Worker>, w: nat, worker: Worker)
    requires w < |workers|
    ensures SumOf(WorkerWorks(workers[w := worker])) + WorkerWork(workers[w]) == SumOf(WorkerWorks(workers)) + WorkerWork(worker)
  {
    hide SumOf, WorkerWork;
    var xs := WorkerWorks(workers);
    assert WorkerWorks(workers[w := worker]) == xs[w := WorkerWork(worker)];
    SumOfUpdate(xs, w, WorkerWork(worker));
  }

  lemma StepLowersWork(table: Table, budget: nat, w: nat, phase: Phase, ledger: Ledger, step: Step)
    requires StepAllowed(budget, phase, step)
    ensures JobWork(Held(w, AfterStep(table, budget, phase, ledger, step).phase), budget) < JobWork(Held(w, phase), budget)
  {
    hide QuoteQualified;
  }

  lemma JobStepLowersWork(s: Pool, w: nat, step: Step)
    requires LinkInv(s) && Enabled(s, Work(w, step))
    ensures WorkLeft(Next(s, Work(w, step))) < WorkLeft(s)
  {
    var t := Next(s, Work(w, step));
    hide SumOf, JobWorks, WorkerWorks, JobWork, AfterStep, StepAllowed, QuoteQualified;
    var j := s.workers[w].job;
    assert s.jobs[j] == Held(w, PhaseOf(s, w));
    JobMoves(s.jobs, s.budgets, j, t.jobs[j]);
    StepLowersWork(s.tables[j], s.budgets[j], w, PhaseOf(s, w), s.ledgers[j], step);
  }

  lemma DeliverLowersWork(s: Pool, w: nat)
    requires LinkInv(s) && Enabled(s, Deliver(w))
    ensures WorkLeft(Next(s, Deliver(w))) < WorkLeft(s)
  {
    hide SumOf, JobWorks, WorkerWorks, AfterStep, StepAllowed, QuoteQualified;
    var t := Next(s, Deliver(w));
    JobMoves(s.jobs, s.budgets, s.next, t.jobs[s.next]);
    WorkerMoves(s.workers, w, t.workers[w]);
  }

  lemma SendLowersWork(s: Pool, w: nat)
    requires LinkInv(s) && Enabled(s, Send(w))
    ensures WorkLeft(Next(s, Send(w))) < WorkLeft(s)
  {
    hide SumOf, JobWorks, WorkerWorks, AfterStep, StepAllowed, QuoteQualified;
    var t := Next(s, Send(w));
    JobMoves(s.jobs, s.budgets, s.workers[w].job, t.jobs[s.workers[w].job]);
    WorkerMoves(s.workers, w, t.workers[w]);
  }

  /** Every action of every actor, outside cancellation included, lowers the work left. */
  lemma WorkDecreases(s: Pool, a: Action)
    requires LinkInv(s) && Enabled(s, a)
    ensures Sized(Next(s, a)) && WorkLeft(Next(s, a)) < WorkLeft(s)
  {
    hide SumOf, JobWorks, WorkerWorks, AfterStep, StepAllowed, QuoteQualified;
    match a {
      case Work(w, step) => JobStepLowersWork(s, w, step);
      case Deliver(w) => DeliverLowersWork(s, w);
      case Send(w) => SendLowersWork(s, w);
      case Receive => JobMoves(s.jobs, s.budgets, s.channel[0], Next(s, a).jobs[s.channel[0]]);
      case CancelAndExit(w) => WorkerMoves(s.workers, w, Exited(true));
      case Exit(w) => WorkerMoves(s.workers, w, Exited(false));
      case _ => hide LinkInv;
    }
  }

  // ---------- no deadlock ----------

  ghost function Range(n: nat): (r: set<nat>)
    ensures |r| == n && forall i: nat :: i in r <==> i < n
  {
    if n == 0 then {} else Range(n - 1) + {n - 1}
  }

  /** The result channel always has room for a finished job: a worker never blocks on sending. */
  lemma SendNeverBlocks(s: Pool, w: nat)
    requires LinkInv(s) && ChannelInv(s) && HoldsJob(s, w) && PhaseOf(s, w).Finished?
    ensures Enabled(s, Send(w))
  {
    var j := s.workers[w].job;
    assert j !in s.channel;
    var waiting := s.channel + [j];
    DistinctFits(waiting, Range(|s.jobs|));
  }

  /** Everybody has stopped: enqueuer, workers, closer and collector. */
  predicate Stopped(s: Pool) {
    !s.collecting && !s.channelOpen && !s.jobsOpen && AllExited(s)
  }

  lemma HolderMoves(s: Pool, w: nat) returns (a: Action)
    requires Inv(s) && HoldsJob(s, w) && s.budgets[s.workers[w].job] > 0
    ensures Enabled(s, a) && !a.OuterCancel?
  {
    var j := s.workers[w].job;
    assert EventsOf(s.budgets[j], s.jobs[j], Project(s.trace, j));
    match PhaseOf(s, w) {
      case Fetched => a := Work(w, OpenSource(true));
      case SourceOpened => a := Work(w, OpenTarget(true));
      case BothOpened => a := Work(w, BeginCopy);
      case Copying(left, bytes) => a := if left > 0 then Work(w, Progress(bytes)) else Work(w, CopyEnds(0));
      case ClosingTarget(_) => a := Work(w, CloseTarget(true));
      case Finished(_) =>
        SendNeverBlocks(s, w);
        a := Send(w);
    }
  }

  /** Until everybody has stopped, some actor other than the outside world can move. */
  lemma NeverStuck(s: Pool) returns (a: Action)
    requires Inv(s) && !Stopped(s) && forall j :: 0 <= j < |s.budgets| ==> s.budgets[j] > 0
    ensures Enabled(s, a) && !a.OuterCancel?
  {
    hide HistoryInv, TallyInv;
    if w :| 0 <= w < |s.workers| && s.workers[w].Holding? {
      a := HolderMoves(s, w);
    } else if w :| 0 <= w < |s.workers| && s.workers[w].Failing? {
      a := CancelAndExit(w);
    } else if w :| 0 <= w < |s.workers| && s.workers[w].Idle? {
      a := if s.jobsOpen then (if s.next == |s.jobs| then CloseJobs else Deliver(w)) else Exit(w);
    } else {
      assert forall w :: 0 <= w < |s.workers| ==> s.workers[w].Exited?;
      a := AllExitedMoves(s);
    }
  }

  lemma AllExitedMoves(s: Pool) returns (a: Action)
    requires Sized(s) && LinkInv(s) && ChannelInv(s) && FlowInv(s) && AllExited(s) && !Stopped(s)
    ensures Enabled(s, a) && !a.OuterCancel?
  {
    if s.jobsOpen {
      // Workers leave an open job channel only after cancelling, so the enqueuer sees it.
      assert s.workers[0].early && s.cancelled;
      a := if s.next == |s.jobs| then CloseJobs else StopEnqueue;
    } else if s.channelOpen {
      a := CloseChannel;
    } else if s.channel != [] {
      assert s.channel[0] in s.channel;
      a := Receive;
    } else {
      a := Finish;
    }
  }

  // ---------- runs ----------

  /** The state after a run, if every action is enabled when its turn comes. */
  function Exec(s: Pool, run: seq<Action>): Option<Pool>
    decreases |run|
  {
    if run == [] then Some(s)
    else if Enabled(s, run[0]) then Exec(Next(s, run[0]), run[1..])
    else None
  }

  lemma InvIsSized(s: Pool)
    requires Inv(s)
    ensures Sized(s) && LinkInv(s)
    ensures Sum(JobTallies(s.jobs)) == Sum(TraceTallies(s.trace))
    ensures forall i :: 0 <= i < |s.trace| ==> s.trace[i].job < |s.jobs|
  {
  }

  /** Every reachable state keeps the invariant, and no run is longer than the initial work. */
  lemma {:induction false} EveryRun(s: Pool, run: seq<Action>)
    requires Inv(s) && Exec(s, run).Some?
    ensures Inv(Exec(s, run).value)
    ensures WorkLeft(Exec(s, run).value) + |run| <= WorkLeft(s)
    decreases |run|
  {
    hide Inv, Next, Enabled, WorkLeft;
    if run != [] {
      InvIsSized(s);
      InvNext(s, run[0]);
      WorkDecreases(s, run[0]);
      EveryRun(Next(s, run[0]), run[1..]);
    }
  }

  /** The collector is done: every table is either collected or was never handed out. */
  lemma WhenCollected(s: Pool)
    requires Inv(s) && !s.collecting
    ensures forall j :: 0 <= j < |s.jobs| ==> s.jobs[j].Collected? || s.jobs[j].Queued?
    ensures s.firstErr.None? ==> forall j :: 0 <= j < |s.jobs| && s.jobs[j].Collected? ==> !s.jobs[j].result.failed
    // Collected are exactly the tables handed out, so without an error all of them are copied
    // exactly when the enqueuer got to the end of the list ...
    ensures forall j :: 0 <= j < |s.jobs| ==> (s.jobs[j].Collected? <==> j < s.next)
    ensures (forall j :: 0 <= j < |s.jobs| ==> s.jobs[j].Collected?) <==> s.next == |s.jobs|
    // ... and it stops before that only for a context that was cancelled from outside.
    ensures s.firstErr.None? && s.next < |s.jobs| ==> s.outer
  {
    hide HistoryInv, TallyInv;
    forall j | 0 <= j < |s.jobs| ensures s.jobs[j].Collected? || s.jobs[j].Queued? {
      assert !s.jobs[j].Held?;
    }
    if s.next < |s.jobs| {
      assert s.jobs[s.next].Queued?;
    }
    if s.firstErr.None? && !s.outer {
      forall j | 0 <= j < |s.jobs| ensures !ReportedFailure(s.jobs[j]) {}
      assert !s.cancelled;
      assert s.workers[0].Exited? && !s.workers[0].early;
    }
  }

  /** The workers from `k` on leave, the result channel closes, the collector is done. */
  function Leave(k: nat, workers: nat): seq<Action>
    requires k <= workers
    decreases workers - k
  {
    if k == workers then [CloseChannel, Finish] else [Exit(k)] + Leave(k + 1, workers)
  }

  /** Whatever the tables and however many workers: cancelled from outside before the first table is
      handed out, the pool reports no error although it copied none of them. */
  lemma NilWithNothingCopied(tables: seq<Table>, budgets: seq<nat>, workers: nat)
    requires tables != [] && |budgets| == |tables|
    ensures var end := Exec(Start(tables, budgets, workers, false), [OuterCancel] + ([StopEnqueue] + Leave(0, workers)));
            end.Some? && Stopped(end.value) && end.value.firstErr.None? && end.value.jobs == seq(|tables|, _ => Queued)
  {
    var s0 := Start(tables, budgets, workers, false);
    hide Exec, AfterStep, StepAllowed, QuoteQualified, Leave;
    var s1 := s0.(outer := true, cancelled := true);
    var s2 := s1.(jobsOpen := false);
    ExecStep(s0, OuterCancel, [StopEnqueue] + Leave(0, workers));
    ExecStep(s1, StopEnqueue, Leave(0, workers));
    IdlePoolStops(s2, 0);
  }

  lemma {:induction false} IdlePoolStops(s: Pool, k: nat)
    requires Sized(s) && !s.jobsOpen && s.channelOpen && s.collecting && s.channel == [] && k <= |s.workers|
    requires forall w :: 0 <= w < |s.workers| ==> s.workers[w] == if w < k then Exited(false) else Idle
    ensures var t := s.(workers := seq(|s.workers|, _ => Exited(false)), channelOpen := false, collecting := false);
            Exec(s, Leave(k, |s.workers|)) == Some(t) && Stopped(t)
    decreases |s.workers| - k
  {
    hide Exec, AfterStep, StepAllowed, QuoteQualified;
    if k == |s.workers| {
      assert s.workers == seq(|s.workers|, _ => Exited(false));
      LastActorsStop(s);
    } else {
      var next := s.(workers := s.workers[k := Exited(false)]);
      ExecStep(s, Exit(k), Leave(k + 1, |s.workers|));
      IdlePoolStops(next, k + 1);
    }
  }

  lemma LastActorsStop(s: Pool)
    requires Sized(s) && AllExited(s) && s.channelOpen && s.collecting && s.channel == []
    ensures Exec(s, [CloseChannel, Finish]) == Some(s.(channelOpen := false, collecting := false))
  {
    hide Exec, AfterStep, StepAllowed, QuoteQualified;
    var closed := s.(channelOpen := false);
    ExecStep(s, CloseChannel, [Finish]);
    ExecStep(closed, Finish, []);
    ExecNone(closed.(collecting := false));
    assert [CloseChannel] + [Finish] == [CloseChannel, Finish] && [Finish] + [] == [Finish];
  }

  lemma ExecNone(s: Pool)
    ensures Exec(s, []) == Some(s)
  {
  }

  lemma ExecStep(s: Pool, a: Action, rest: seq<Action>)
    requires Enabled(s, a)
    ensures Exec(s, [a] + rest) == Exec(Next(s, a), rest)
  {
    hide Enabled, Next;
    assert ([a] + rest)[1..] == rest;
  }

  lemma {:induction false} ExecAppend(s: Pool, run: seq<Action>, a: Action)
    requires Exec(s, run).Some? && Enabled(Exec(s, run).value, a)
    ensures Exec(s, run + [a]) == Some(Next(Exec(s, run).value, a))
    decreases |run|
  {
    hide Enabled, Next;
    if run == [] {
      assert [] + [a] == [a] + [];
      ExecStep(s, a, []);
      ExecNone(Next(s, a));
    } else {
      ExecAppend(Next(s, run[0]), run[1..], a);
      assert (run + [a])[1..] == run[1..] + [a];
    }
  }

  // ---------- when a call fails ----------

  /** A call of a server goes wrong. */
  predicate Fault(a: Action) {
    a.Work? &&
    match a.step
    case OpenSource(ok) => !ok
    case OpenTarget(ok) => !ok
    case CopyFails(_, _) => true
    case CloseTarget(ok) => !ok
    case _ => false
  }

  ghost predicate HasFault(run: seq<Action>) {
    exists i :: 0 <= i < |run| && Fault(run[i])
  }

  ghost predicate AllQuotable(tables: seq<Table>) {
    forall j :: 0 <= j < |tables| ==> Quotable(tables[j])
  }

  /** The outcome of the job, as far as it is known, is an error. */
  predicate JobFailed(job: Job) {
    match job
    case Held(_, ClosingTarget(outcome)) => outcome.failed
    case Held(_, Finished(outcome)) => outcome.failed
    case InChannel(result) => result.failed
    case Collected(result) => result.failed
    case _ => false
  }

  ghost predicate AnyFailed(s: Pool) {
    exists j :: 0 <= j < |s.jobs| && JobFailed(s.jobs[j])
  }

  /** An error of a job stays, and a fault makes one. */
  lemma FaultShows(s: Pool, a: Action)
    requires LinkInv(s) && Enabled(s, a)
    ensures AnyFailed(s) || Fault(a) ==> AnyFailed(Next(s, a))
  {
    hide QuoteQualified;
    if Fault(a) {
      assert JobFailed(Next(s, a).jobs[s.workers[a.w].job]);
    } else if AnyFailed(s) {
      var j :| 0 <= j < |s.jobs| && JobFailed(s.jobs[j]);
      FailedStays(s, a, j);
    }
  }

  lemma FailedStays(s: Pool, a: Action, j: nat)
    requires LinkInv(s) && Enabled(s, a) && j < |s.jobs| && JobFailed(s.jobs[j])
    ensures JobFailed(Next(s, a).jobs[j])
  {
    hide QuoteQualified;
    match a {
      case Work(w, step) => hide LinkInv;
      case Deliver(w) =>
      case _ => hide LinkInv, AfterStep, StepAllowed;
    }
  }

  /** Only a fault or a name that cannot be quoted makes a job fail. */
  lemma FailedForAReason(s: Pool, a: Action)
    requires LinkInv(s) && Enabled(s, a) && !Fault(a) && AllQuotable(s.tables) && AnyFailed(Next(s, a))
    ensures AnyFailed(s)
  {
    hide QuoteQualified;
    var j :| 0 <= j < |s.jobs| && JobFailed(Next(s, a).jobs[j]);
    assert JobFailed(s.jobs[j]);
  }

  lemma {:induction false} FaultsOfRun(s: Pool, run: seq<Action>)
    requires Inv(s) && Exec(s, run).Some?
    ensures var t := Exec(s, run).value;
      && t.tables == s.tables
      && (AnyFailed(s) || HasFault(run) ==> AnyFailed(t))
      && (AnyFailed(t) ==> AnyFailed(s) || HasFault(run) || !AllQuotable(s.tables))
      && (t.outer <==> s.outer || OuterCancel in run)
    decreases |run|
  {
    hide Inv, Enabled, Next, AnyFailed, AllQuotable, Fault;
    if run != [] {
      var a, next := run[0], Next(s, run[0]);
      InvIsSized(s);
      InvNext(s, a);
      FaultShows(s, a);
      if !Fault(a) && AllQuotable(s.tables) && AnyFailed(next) {
        FailedForAReason(s, a);
      }
      OuterShows(s, a);
      assert HasFault(run) <==> Fault(a) || HasFault(run[1..]) by { FaultsOfRest(run); }
      assert run == [a] + run[1..];
      FaultsOfRun(next, run[1..]);
    }
  }

  lemma FaultsOfRest(run: seq<Action>)
    requires run != []
    ensures HasFault(run) <==> Fault(run[0]) || HasFault(run[1..])
  {
    hide Fault;
    if HasFault(run[1..]) {
      var i :| 0 <= i < |run[1..]| && Fault(run[1..][i]);
      assert Fault(run[i + 1]);
    }
    if HasFault(run) && !Fault(run[0]) {
      var i :| 0 <= i < |run| && Fault(run[i]);
      assert Fault(run[1..][i - 1]);
    }
  }

  lemma OuterShows(s: Pool, a: Action)
    requires Enabled(s, a)
    ensures Next(s, a).outer <==> s.outer || a == OuterCancel
  {
    hide AfterStep, StepAllowed;
  }

  /** The collector has seen an error exactly when some job failed. */
  lemma ErrorsCollected(s: Pool)
    requires Inv(s) && !s.collecting
    ensures s.firstErr.Some? <==> AnyFailed(s)
    ensures s.firstErr.None? && !s.outer ==> AllQuotable(s.tables)
  {
    WhenCollected(s);
    if s.firstErr.Some? {
      assert JobFailed(s.jobs[s.firstErr.value]);
    } else if !s.outer {
      forall j | 0 <= j < |s.tables| ensures Quotable(s.tables[j]) {
        CopiedIsQuotable(s, j);
      }
    }
  }

  lemma CopiedIsQuotable(s: Pool, j: nat)
    requires Inv(s) && j < |s.jobs| && s.jobs[j].Collected? && !s.jobs[j].result.failed
    ensures Quotable(s.tables[j])
  {
    hide LinkInv, ChannelInv, FlowInv, TallyInv, InFlight, CompleteJob, QuoteQualified;
    assert EventsOf(s.budgets[j], s.jobs[j], Project(s.trace, j)) && LedgerOf(s.tables[j], s.jobs[j], s.ledgers[j]);
  }

  /** Exactly when a run of the pool ends with an error: a server call in it failed, or a table that
      was handed out has a name that cannot be quoted. */
  lemma WhenPoolFails(tables: seq<Table>, budgets: seq<nat>, workers: nat, outer: bool, run: seq<Action>)
    requires |budgets| == |tables| && workers > 0 && Exec(Start(tables, budgets, workers, outer), run).Some?
    requires !Exec(Start(tables, budgets, workers, outer), run).value.collecting
    ensures var end := Exec(Start(tables, budgets, workers, outer), run).value;
      FailsWhen(tables, end.firstErr.Some?, end.outer, run) && (end.outer <==> outer || OuterCancel in run)
  {
    hide Inv, AnyFailed, AllQuotable, HasFault;
    var s := Start(tables, budgets, workers, outer);
    InvStart(tables, budgets, workers, outer);
    EveryRun(s, run);
    FaultsOfRun(s, run);
    ErrorsCollected(Exec(s, run).value);
    NothingFailedYet(tables, budgets, workers, outer);
  }

  lemma NothingFailedYet(tables: seq<Table>, budgets: seq<nat>, workers: nat, outer: bool)
    ensures !AnyFailed(Start(tables, budgets, workers, outer))
  {
  }

  /** With a live context the call fails exactly for a fault or an unquotable name; under a cancelled
      one it may stop before it gets to such a name. */
  ghost predicate FailsWhen(tables: seq<Table>, failed: bool, outer: bool, run: seq<Action>) {
    && (HasFault(run) ==> failed)
    && (failed ==> HasFault(run) || !AllQuotable(tables))
    && (!failed && !outer ==> AllQuotable(tables))
  }

  // ---------- how many tables at once ----------

  ghost function Busy(s: Pool): set<nat> {
    set j: nat | j < |s.jobs| && s.jobs[j].Held?
  }

  lemma {:induction false} SameWorkers(s: Pool, run: seq<Action>)
    requires Exec(s, run).Some?
    ensures |Exec(s, run).value.workers| == |s.workers|
    decreases |run|
  {
    hide Next, Enabled;
    if run != [] {
      SameWorkers(Next(s, run[0]), run[1..]);
    }
  }

  /** Jobs with different holders, all among the first `n` workers. */
  lemma {:induction false} FewHolders(s: Pool, jobs: set<nat>, n: nat)
    requires forall j :: j in jobs ==> j < |s.jobs| && s.jobs[j].Held? && s.jobs[j].worker < n
    requires forall i, j :: i in jobs && j in jobs && s.jobs[i].worker == s.jobs[j].worker ==> i == j
    ensures |jobs| <= n
  {
    if jobs != {} {
      if j :| j in jobs && s.jobs[j].worker == n - 1 {
        FewHolders(s, jobs - {j}, n - 1);
      } else {
        var some :| some in jobs;
        FewHolders(s, jobs, n - 1);
      }
    }
  }

  /** No more tables are being copied at once than there are workers. */
  lemma BoundedCopies(tables: seq<Table>, budgets: seq<nat>, workers: nat, outer: bool, run: seq<Action>)
    requires |budgets| == |tables| && workers > 0 && Exec(Start(tables, budgets, workers, outer), run).Some?
    ensures |Busy(Exec(Start(tables, budgets, workers, outer), run).value)| <= workers
  {
    hide ChannelInv, FlowInv, HistoryInv, TallyInv;
    var s := Start(tables, budgets, workers, outer);
    InvStart(tables, budgets, workers, outer);
    EveryRun(s, run);
    SameWorkers(s, run);
    FewHolders(Exec(s, run).value, Busy(Exec(s, run).value), workers);
  }

  function DeliverFirst(k: nat): seq<Action> {
    seq(k, w requires 0 <= w < k => Deliver(w))
  }

  /** And as many can be: `k` workers take the first `k` tables before anything else happens. */
  lemma {:induction false} AllAtOnce(tables: seq<Table>, budgets: seq<nat>, workers: nat, outer: bool, k: nat)
    requires |budgets| == |tables| && k <= workers && k <= |tables|
    ensures var s := Exec(Start(tables, budgets, workers, outer), DeliverFirst(k));
      && s.Some? && s.value.next == k && s.value.jobsOpen && s.value.tables == tables && s.value.budgets == budgets
      && |s.value.jobs| == |s.value.ledgers| == |tables| && |s.value.workers| == workers
      && (forall w :: k <= w < workers ==> s.value.workers[w] == Idle)
      && (forall j :: 0 <= j < k ==> s.value.jobs[j].Held?)
  {
    var start := Start(tables, budgets, workers, outer);
    if k == 0 {
      assert DeliverFirst(0) == [];
      ExecNone(start);
    } else {
      AllAtOnce(tables, budgets, workers, outer, k - 1);
      assert DeliverFirst(k) == DeliverFirst(k - 1) + [Deliver(k - 1)];
      ExecAppend(start, DeliverFirst(k - 1), Deliver(k - 1));
    }
  }

  // ---------- the calls ----------

  /** results[j] of runCopyWorkers: what was collected, or the zero value. */
  function ResultOf(job: Job): TableResult {
    if job.Collected? then job.result else TableResult(ZERO, false)
  }

  function Results(jobs: seq<Job>): seq<TableResult> {
    seq(|jobs|, i requires 0 <= i < |jobs| => ResultOf(jobs[i]))
  }

  function ResultTallies(results: seq<TableResult>): seq<Tally> {
    seq(|results|, i requires 0 <= i < |results| => results[i].tally)
  }

  method AggregateCopyResults(results: seq<TableResult>) returns (total: Tally)
    ensures total == Sum(ResultTallies(results))
    ensures total.tables == SumOf(seq(|results|, i requires 0 <= i < |results| => results[i].tally.tables))
    ensures total.rows == SumOf(seq(|results|, i requires 0 <= i < |results| => results[i].tally.rows))
    ensures total.bytes == SumOf(seq(|results|, i requires 0 <= i < |results| => results[i].tally.bytes))
  {
    hide Sum, SumOf;
    total := ZERO;
    SumNone();
    for i := 0 to |results|
      invariant total == Sum(ResultTallies(results[..i]))
    {
      assert ResultTallies(results[..i + 1]) == ResultTallies(results[..i]) + [results[i].tally];
      SumAppend(ResultTallies(results[..i]), results[i].tally);
      total := Tally(total.tables + results[i].tally.tables, total.rows + results[i].tally.rows,
                     total.bytes + results[i].tally.bytes);
    }
    assert results[..|results|] == results;
    SumByField(ResultTallies(results), seq(|results|, i requires 0 <= i < |results| => results[i].tally.tables),
               seq(|results|, i requires 0 <= i < |results| => results[i].tally.rows),
               seq(|results|, i requires 0 <= i < |results| => results[i].tally.bytes));
  }

  lemma SumNone()
    ensures Sum(ResultTallies([])) == ZERO
  {
  }

  /** The done events the observer saw. */
  function DoneTally(trace: seq<PoolEvent>): Tally {
    Sum(TraceTallies(trace))
  }

  /** What the done events say, number by number. */
  lemma DoneFields(trace: seq<PoolEvent>)
    ensures DoneTally(trace).tables == SumOf(seq(|trace|, i requires 0 <= i < |trace| => if trace[i].event.CopyDone? then 1 else 0))
    ensures DoneTally(trace).rows == SumOf(seq(|trace|, i requires 0 <= i < |trace| => if trace[i].event.CopyDone? then trace[i].event.rows else 0))
    ensures DoneTally(trace).bytes == SumOf(seq(|trace|, i requires 0 <= i < |trace| => if trace[i].event.CopyDone? then trace[i].event.bytes else 0))
  {
    hide Sum, SumOf;
    SumByField(TraceTallies(trace),
               seq(|trace|, i requires 0 <= i < |trace| => if trace[i].event.CopyDone? then 1 else 0),
               seq(|trace|, i requires 0 <= i < |trace| => if trace[i].event.CopyDone? then trace[i].event.rows else 0),
               seq(|trace|, i requires 0 <= i < |trace| => if trace[i].event.CopyDone? then trace[i].event.bytes else 0));
  }

  ghost predicate CopiedInFull(events: seq<JobEvent>) {
    exists bytes, rows :: CompleteJob(events, bytes, rows)
  }

  /** Each table's own events: none, a copy that stopped on the way, or a complete one. */
  ghost predicate TableGrammar(events: seq<JobEvent>) {
    || events == []
    || (exists bytes :: InFlight(events, bytes))
    || CopiedInFull(events)
  }

  /** What an errorless call did for table `j`: all of it, or nothing at all. */
  ghost predicate CopiedOrUntouched(copied: bool, events: seq<JobEvent>, ledger: Ledger) {
    if copied then CopiedInFull(events) && ledger == BOTH_CLOSED else events == [] && ledger == UNOPENED
  }

  /** What CopyTables promises its caller, `handedOut` tables having reached a worker. */
  ghost predicate CopyContract(tables: seq<Table>, handedOut: nat, total: Tally, failed: bool, outer: bool, trace: seq<PoolEvent>, ledgers: seq<Ledger>) {
    && |ledgers| == |tables| && handedOut <= |tables|
    // Tables are counted exactly when their done event was shown, whatever else went wrong.
    && total.tables == DoneTally(trace).tables
    // Without an error the totals agree with the done events, and exactly the tables handed out were copied, once each.
    && (!failed ==> total == DoneTally(trace) && total.tables == handedOut)
    && (!failed ==> forall j :: 0 <= j < |tables| ==> CopiedOrUntouched(j < handedOut, Project(trace, j), ledgers[j]))
    // Without an error a table is left out only under a context that the caller cancelled.
    && (!failed && handedOut < |tables| ==> outer)
    && (forall j :: 0 <= j < |tables| ==> TableGrammar(Project(trace, j)))
    && (forall i :: 0 <= i < |trace| ==> trace[i].job < |tables|)
    // Connections are closed once each, except the source of a table whose name cannot be quoted.
    && (forall j :: 0 <= j < |tables| ==> (Balanced(ledgers[j]) <==> Quotable(tables[j]) || !ledgers[j].targetOpened))
  }

  lemma TallyOfCollected(s: Pool, j: nat)
    requires Inv(s) && !s.collecting && j < |s.jobs|
    ensures JobTally(s.jobs[j]).tables == ResultOf(s.jobs[j]).tally.tables <= 1
    ensures s.firstErr.None? ==> JobTally(s.jobs[j]) == ResultOf(s.jobs[j]).tally
    ensures s.firstErr.None? ==> ResultOf(s.jobs[j]).tally.tables == if s.jobs[j].Collected? then 1 else 0
  {
    WhenCollected(s);
    hide LinkInv, ChannelInv, FlowInv, TallyInv, InFlight, CompleteJob;
    assert EventsOf(s.budgets[j], s.jobs[j], Project(s.trace, j));
  }

  /** Sums that agree table by table agree in total. */
  lemma {:induction false} SumsAgree(xs: seq<Tally>, ys: seq<Tally>)
    requires |xs| == |ys| && forall i :: 0 <= i < |xs| ==> xs[i].tables == ys[i].tables
    ensures Sum(xs).tables == Sum(ys).tables
  {
    if xs != [] {
      SumsAgree(xs[..|xs| - 1], ys[..|ys| - 1]);
    }
  }

  lemma {:induction false} SumOfFirst(xs: seq<Tally>, k: nat)
    requires k <= |xs| && forall i :: 0 <= i < |xs| ==> xs[i].tables == if i < k then 1 else 0
    ensures Sum(xs).tables == k
  {
    if xs != [] {
      SumOfFirst(xs[..|xs| - 1], if k == |xs| then k - 1 else k);
    }
  }

  lemma TotalsAgree(s: Pool)
    requires Inv(s) && !s.collecting
    ensures s.next <= |s.jobs|
    ensures var total := Sum(ResultTallies(Results(s.jobs)));
      && total.tables == DoneTally(s.trace).tables
      && (s.firstErr.None? ==> total == DoneTally(s.trace) && total.tables == s.next)
  {
    hide Inv, Sum, JobTally, ResultOf, TraceTallies;
    InvIsSized(s);
    WhenCollected(s);
    var xs := JobTallies(s.jobs);
    var ys := ResultTallies(Results(s.jobs));
    forall j | 0 <= j < |s.jobs|
      ensures xs[j].tables == ys[j].tables && (s.firstErr.None? ==> xs[j] == ys[j])
      ensures s.firstErr.None? ==> ys[j].tables == if j < s.next then 1 else 0
    {
      TallyOfCollected(s, j);
    }
    SumsAgree(xs, ys);
    if s.firstErr.None? {
      assert xs == ys;
      SumOfFirst(ys, s.next);
    }
  }

  lemma HistoryWhenCollected(s: Pool, j: nat)
    requires Inv(s) && !s.collecting && j < |s.jobs|
    ensures TableGrammar(Project(s.trace, j))
    ensures Balanced(s.ledgers[j]) <==> Quotable(s.tables[j]) || !s.ledgers[j].targetOpened
    ensures s.firstErr.None? ==> CopiedOrUntouched(j < s.next, Project(s.trace, j), s.ledgers[j])
  {
    WhenCollected(s);
    TallyOfCollected(s, j);
    hide LinkInv, ChannelInv, FlowInv, TallyInv, InFlight, CompleteJob, QuoteQualified;
    assert EventsOf(s.budgets[j], s.jobs[j], Project(s.trace, j)) && LedgerOf(s.tables[j], s.jobs[j], s.ledgers[j]);
  }

  /** Runs the pool under some schedule until the collector is done. Any schedule will do: the
      loop picks actions freely and still ends. */
  method RunCopyWorkers(tables: seq<Table>, workers: nat, cancelledAtCall: bool)
    returns (s: Pool, ghost budgets: seq<nat>, ghost run: seq<Action>)
    requires workers > 0
    ensures Inv(s) && !s.collecting && s.tables == tables && |budgets| == |tables|
    ensures Exec(Start(tables, budgets, workers, cancelledAtCall), run) == Some(s)
  {
    hide Inv, WorkLeft, Enabled, Next, Stopped, Exec;
    ghost var ones: seq<nat> := seq(|tables|, _ => 1);
    assert |ones| == |tables| && forall j :: 0 <= j < |ones| ==> ones[j] > 0;
    var bounds: seq<nat> :| |bounds| == |tables| && forall j :: 0 <= j < |bounds| ==> bounds[j] > 0;
    s, budgets, run := Start(tables, bounds, workers, cancelledAtCall), bounds, [];
    InvStart(tables, bounds, workers, cancelledAtCall);
    InvIsSized(s);
    ExecNone(s);
    while s.collecting
      invariant Inv(s) && Sized(s) && s.tables == tables && s.budgets == bounds
      invariant Exec(Start(tables, bounds, workers, cancelledAtCall), run) == Some(s)
      decreases WorkLeft(s)
    {
      CollectingIsNotStopped(s);
      ghost var possible := NeverStuck(s);
      var a :| Enabled(s, a);
      InvIsSized(s);
      InvNext(s, a);
      WorkDecreases(s, a);
      ExecAppend(Start(tables, bounds, workers, cancelledAtCall), run, a);
      s, run := Next(s, a), run + [a];
      InvIsSized(s);
    }
  }

  lemma CollectingIsNotStopped(s: Pool)
    requires s.collecting
    ensures !Stopped(s)
  {
  }

  /** What one call comes to. */
  datatype Call = Call(total: Tally, failed: bool, outer: bool, trace: seq<PoolEvent>, handedOut: nat, ledgers: seq<Ledger>)

  /** `run` is a run of the pool over these tables, and the call is what its last state says. */
  ghost predicate EndsLike(tables: seq<Table>, threads: int, cancelledAtCall: bool, run: seq<Action>, c: Call) {
    if tables == [] then run == [] && c == Call(ZERO, false, cancelledAtCall, [], 0, [])
    else
      var workers := if threads <= 0 then 1 else threads;
      exists budgets :: |budgets| == |tables| && RunEnds(Start(tables, budgets, workers, cancelledAtCall), run, c)
  }

  ghost predicate RunEnds(s: Pool, run: seq<Action>, c: Call) {
    var end := Exec(s, run);
    && end.Some? && !end.value.collecting && c == CallOf(end.value)
  }

  function CallOf(end: Pool): Call {
    Call(Sum(ResultTallies(Results(end.jobs))), end.firstErr.Some?, end.outer, end.trace, end.next, end.ledgers)
  }

  method CopyTables(tables: seq<Table>, threads: int, cancelledAtCall: bool)
    returns (total: Tally, failed: bool, outer: bool, trace: seq<PoolEvent>, ghost handedOut: nat, ghost ledgers: seq<Ledger>, ghost run: seq<Action>)
    ensures cancelledAtCall ==> outer
    ensures CopyContract(tables, handedOut, total, failed, outer, trace, ledgers)
    // The call is a run of the pool, and the server calls in it decide whether it fails.
    ensures EndsLike(tables, threads, cancelledAtCall, run, Call(total, failed, outer, trace, handedOut, ledgers))
    ensures FailsWhen(tables, failed, outer, run)
    // A successful call reports the rows and bytes of the done events shown, added up.
    ensures total.tables == SumOf(seq(|trace|, i requires 0 <= i < |trace| => if trace[i].event.CopyDone? then 1 else 0))
    ensures !failed ==> total.rows == SumOf(seq(|trace|, i requires 0 <= i < |trace| => if trace[i].event.CopyDone? then trace[i].event.rows else 0))
    ensures !failed ==> total.bytes == SumOf(seq(|trace|, i requires 0 <= i < |trace| => if trace[i].event.CopyDone? then trace[i].event.bytes else 0))
  {
    hide Inv, Exec, FailsWhen, CopyContract, Sum, SumOf, DoneTally;
    if |tables| == 0 {
      NothingToCopy(tables, cancelledAtCall);
      ContractTotals(tables, 0, ZERO, false, cancelledAtCall, [], []);
      return ZERO, false, cancelledAtCall, [], 0, [], [];
    }
    var s;
    ghost var budgets;
    var workers := if threads <= 0 then 1 else threads;
    s, budgets, run := RunCopyWorkers(tables, workers, cancelledAtCall);
    total := AggregateCopyResults(Results(s.jobs));
    failed, outer, trace, handedOut, ledgers := s.firstErr.Some?, s.outer, s.trace, s.next, s.ledgers;
    PoolMeetsContract(s);
    WhenPoolFails(tables, budgets, workers, cancelledAtCall, run);
    assert RunEnds(Start(tables, budgets, workers, cancelledAtCall), run, CallOf(s));
    ContractTotals(tables, handedOut, total, failed, outer, trace, ledgers);
  }

  lemma ContractTotals(tables: seq<Table>, handedOut: nat, total: Tally, failed: bool, outer: bool, trace: seq<PoolEvent>, ledgers: seq<Ledger>)
    requires CopyContract(tables, handedOut, total, failed, outer, trace, ledgers)
    ensures total.tables == SumOf(seq(|trace|, i requires 0 <= i < |trace| => if trace[i].event.CopyDone? then 1 else 0))
    ensures !failed ==> total.rows == SumOf(seq(|trace|, i requires 0 <= i < |trace| => if trace[i].event.CopyDone? then trace[i].event.rows else 0))
    ensures !failed ==> total.bytes == SumOf(seq(|trace|, i requires 0 <= i < |trace| => if trace[i].event.CopyDone? then trace[i].event.bytes else 0))
  {
    hide DoneTally, SumOf;
    DoneFields(trace);
  }

  /** Failed or not, a call reports the tables, rows and bytes of the results it collected. */
  lemma RunTotals(s: Pool, run: seq<Action>, c: Call)
    requires RunEnds(s, run, c)
    ensures var jobs := Exec(s, run).value.jobs;
      && c.total.tables == SumOf(seq(|jobs|, i requires 0 <= i < |jobs| => if jobs[i].Collected? then jobs[i].result.tally.tables else 0))
      && c.total.rows == SumOf(seq(|jobs|, i requires 0 <= i < |jobs| => if jobs[i].Collected? then jobs[i].result.tally.rows else 0))
      && c.total.bytes == SumOf(seq(|jobs|, i requires 0 <= i < |jobs| => if jobs[i].Collected? then jobs[i].result.tally.bytes else 0))
  {
    hide Sum, SumOf, Exec;
    var jobs := Exec(s, run).value.jobs;
    SumByField(ResultTallies(Results(jobs)),
               seq(|jobs|, i requires 0 <= i < |jobs| => if jobs[i].Collected? then jobs[i].result.tally.tables else 0),
               seq(|jobs|, i requires 0 <= i < |jobs| => if jobs[i].Collected? then jobs[i].result.tally.rows else 0),
               seq(|jobs|, i requires 0 <= i < |jobs| => if jobs[i].Collected? then jobs[i].result.tally.bytes else 0));
  }

  lemma NothingToCopy(tables: seq<Table>, outer: bool)
    requires tables == []
    ensures CopyContract(tables, 0, ZERO, false, outer, [], []) && FailsWhen(tables, false, outer, [])
  {
    assert TraceTallies([]) == [];
  }

  lemma PoolMeetsContract(s: Pool)
    requires Inv(s) && !s.collecting
    ensures CopyContract(s.tables, s.next, Sum(ResultTallies(Results(s.jobs))), s.firstErr.Some?, s.outer, s.trace, s.ledgers)
  {
    hide Inv, TableGrammar, CopiedOrUntouched, Balanced, Quotable, Sum, Project, Results, ResultTallies, DoneTally;
    TotalsAgree(s);
    InvIsSized(s);
    WhenCollected(s);
    forall j | 0 <= j < |s.jobs|
      ensures TableGrammar(Project(s.trace, j))
      ensures Balanced(s.ledgers[j]) <==> Quotable(s.tables[j]) || !s.ledgers[j].targetOpened
      ensures s.firstErr.None? ==> CopiedOrUntouched(j < s.next, Project(s.trace, j), s.ledgers[j])
    {
      HistoryWhenCollected(s, j);
    }
  }

  // ---------- a done event under a cancelled context ----------

  /** Table 0 is being copied ... */
  function TakeOff(bytes: nat): seq<Action> {
    [Deliver(0), Deliver(1), Work(0, OpenSource(true)), Work(0, OpenTarget(true)), Work(0, BeginCopy), Work(0, Progress(bytes))]
  }

  /** ... when table 1 fails and its worker cancels the pool. */
  function FailOther(): seq<Action> {
    [Work(1, OpenSource(false)), Send(1), CancelAndExit(1)]
  }

  function WindUp(): seq<Action> {
    [Work(0, CloseTarget(true)), Send(0), CloseJobs, Exit(0), CloseChannel, Receive, Receive, Finish]
  }

  function TwoTableRun(bytes: nat, rows: nat): seq<Action> {
    TakeOff(bytes) + FailOther() + ([Work(0, CopyEnds(rows))] + WindUp())
  }

  function OneInFlight(a: Table, b: Table, p: nat, q: nat, bytes: nat): Pool
    requires p > 0
  {
    Pool([a, b], [p, q], [Held(0, Copying(p - 1, bytes)), Held(1, Fetched)], [Ledger(true, 0, true, 0), UNOPENED],
         [Holding(0), Holding(1)], 2, true, [], true, true, None, false, false,
         [PoolEvent(0, CopyStart), PoolEvent(0, CopyProgress(bytes))])
  }

  function OtherFailed(a: Table, b: Table, p: nat, q: nat, bytes: nat): Pool
    requires p > 0
  {
    OneInFlight(a, b, p, q, bytes).(
      jobs := [Held(0, Copying(p - 1, bytes)), InChannel(FailedResult(0, 0))], channel := [1],
      workers := [Holding(0), Exited(true)], cancelled := true)
  }

  function BothEnded(a: Table, b: Table, p: nat, q: nat, bytes: nat, rows: nat): Pool
    requires p > 0
  {
    OtherFailed(a, b, p, q, bytes).(
      jobs := [Collected(TableResult(Tally(1, rows, bytes), false)), Collected(FailedResult(0, 0))], channel := [],
      ledgers := [BOTH_CLOSED, UNOPENED], workers := [Exited(false), Exited(true)], firstErr := Some(1),
      jobsOpen := false, channelOpen := false, collecting := false,
      trace := FirstCopy(bytes, rows))
  }

  /** What the observer is shown of the first table. */
  function FirstCopy(bytes: nat, rows: nat): seq<PoolEvent> {
    [PoolEvent(0, CopyStart), PoolEvent(0, CopyProgress(bytes)), PoolEvent(0, CopyDone(bytes, rows))]
  }

  lemma {:induction false} ExecConcat(s: Pool, first: seq<Action>, rest: seq<Action>)
    requires Exec(s, first).Some?
    ensures Exec(s, first + rest) == Exec(Exec(s, first).value, rest)
    decreases |first|
  {
    hide Enabled, Next;
    if first == [] {
      assert first + rest == rest;
    } else {
      ExecConcat(Next(s, first[0]), first[1..], rest);
      assert (first + rest)[1..] == first[1..] + rest;
    }
  }

  lemma ExecFrom(s: Pool, run: seq<Action>, i: nat)
    requires i < |run| && Enabled(s, run[i])
    ensures Exec(s, run[i..]) == Exec(Next(s, run[i]), run[i + 1..])
  {
    hide Enabled, Next;
    assert run[i..][1..] == run[i + 1..];
  }

  lemma ExecEnd(s: Pool, run: seq<Action>)
    ensures Exec(s, run[|run|..]) == Some(s) && Exec(s, run[0..]) == Exec(s, run)
  {
    hide Enabled, Next;
    assert run[0..] == run && run[|run|..] == [];
  }

  lemma OneTakesOff(a: Table, b: Table, p: nat, q: nat, bytes: nat)
    requires p > 0 && Quotable(a)
    ensures Exec(Start([a, b], [p, q], 2, false), TakeOff(bytes)) == Some(OneInFlight(a, b, p, q, bytes))
  {
    hide Exec, QuoteQualified;
    var run := TakeOff(bytes);
    var s0 := Start([a, b], [p, q], 2, false);
    var s1 := Next(s0, Deliver(0));
    var s2 := Next(s1, Deliver(1));
    assert s2.jobs == [Held(0, Fetched), Held(1, Fetched)] && s2.workers == [Holding(0), Holding(1)] && s2.ledgers == [UNOPENED, UNOPENED];
    ExecEnd(s0, run);
    ExecFrom(s0, run, 0);
    ExecFrom(s1, run, 1);
    OneCopies(s2, bytes);
  }

  /** One step of the first worker with the first of two tables. */
  lemma FirstWorks(s: Pool, phase: Phase, step: Step)
    requires Sized(s) && |s.tables| == 2 && |s.workers| == 2 && s.workers[0] == Holding(0) && s.jobs[0] == Held(0, phase)
    requires StepAllowed(s.budgets[0], phase, step)
    ensures var e := AfterStep(s.tables[0], s.budgets[0], phase, s.ledgers[0], step);
      && Enabled(s, Work(0, step))
      && Next(s, Work(0, step)) == s.(jobs := [Held(0, e.phase), s.jobs[1]], ledgers := [e.ledger, s.ledgers[1]],
           trace := if e.event.Some? then s.trace + [PoolEvent(0, e.event.value)] else s.trace)
  {
    hide AfterStep, StepAllowed, QuoteQualified;
  }

  lemma OneCopies(s: Pool, bytes: nat)
    requires |s.tables| == 2 && Quotable(s.tables[0]) && |s.budgets| == 2 && s.budgets[0] > 0 && s.trace == []
    requires s.jobs == [Held(0, Fetched), Held(1, Fetched)] && s.workers == [Holding(0), Holding(1)] && s.ledgers == [UNOPENED, UNOPENED]
    ensures Exec(s, TakeOff(bytes)[2..]) == Some(s.(
      jobs := [Held(0, Copying(s.budgets[0] - 1, bytes)), Held(1, Fetched)], ledgers := [Ledger(true, 0, true, 0), UNOPENED],
      trace := [PoolEvent(0, CopyStart), PoolEvent(0, CopyProgress(bytes))]))
  {
    hide Exec, Next, Enabled, QuoteQualified;
    var run := TakeOff(bytes);
    var s3 := s.(jobs := [Held(0, SourceOpened), Held(1, Fetched)], ledgers := [Ledger(true, 0, false, 0), UNOPENED]);
    FirstWorks(s, Fetched, OpenSource(true));
    var s4 := s3.(jobs := [Held(0, BothOpened), Held(1, Fetched)], ledgers := [Ledger(true, 0, true, 0), UNOPENED]);
    FirstWorks(s3, SourceOpened, OpenTarget(true));
    ExecFrom(s, run, 2);
    ExecFrom(s3, run, 3);
    CopyFlows(s4, bytes);
  }

  lemma CopyBegins(s: Pool)
    requires |s.tables| == 2 && Quotable(s.tables[0]) && |s.budgets| == 2 && s.trace == []
    requires s.jobs == [Held(0, BothOpened), Held(1, Fetched)] && s.workers == [Holding(0), Holding(1)] && |s.ledgers| == 2
    ensures Enabled(s, Work(0, BeginCopy))
    ensures Next(s, Work(0, BeginCopy)) == s.(jobs := [Held(0, Copying(s.budgets[0], 0)), Held(1, Fetched)], trace := [PoolEvent(0, CopyStart)])
  {
    hide Enabled, Next, QuoteQualified;
    FirstWorks(s, BothOpened, BeginCopy);
    assert s.ledgers == [s.ledgers[0], s.ledgers[1]];
    assert s.trace + [PoolEvent(0, CopyStart)] == [PoolEvent(0, CopyStart)];
  }

  lemma CopyProgresses(s: Pool, bytes: nat)
    requires |s.tables| == 2 && |s.budgets| == 2 && s.budgets[0] > 0 && s.trace == [PoolEvent(0, CopyStart)]
    requires s.jobs == [Held(0, Copying(s.budgets[0], 0)), Held(1, Fetched)] && s.workers == [Holding(0), Holding(1)] && |s.ledgers| == 2
    ensures Enabled(s, Work(0, Progress(bytes)))
    ensures Next(s, Work(0, Progress(bytes))) == s.(
      jobs := [Held(0, Copying(s.budgets[0] - 1, bytes)), Held(1, Fetched)],
      trace := [PoolEvent(0, CopyStart), PoolEvent(0, CopyProgress(bytes))])
  {
    hide Enabled, Next, QuoteQualified;
    FirstWorks(s, Copying(s.budgets[0], 0), Progress(bytes));
    assert s.ledgers == [s.ledgers[0], s.ledgers[1]];
    assert s.trace + [PoolEvent(0, CopyProgress(bytes))] == [PoolEvent(0, CopyStart), PoolEvent(0, CopyProgress(bytes))];
  }

  lemma CopyFlows(s: Pool, bytes: nat)
    requires |s.tables| == 2 && Quotable(s.tables[0]) && |s.budgets| == 2 && s.budgets[0] > 0 && s.trace == []
    requires s.jobs == [Held(0, BothOpened), Held(1, Fetched)] && s.workers == [Holding(0), Holding(1)] && |s.ledgers| == 2
    ensures Exec(s, TakeOff(bytes)[4..]) == Some(s.(
      jobs := [Held(0, Copying(s.budgets[0] - 1, bytes)), Held(1, Fetched)],
      trace := [PoolEvent(0, CopyStart), PoolEvent(0, CopyProgress(bytes))]))
  {
    hide Exec, Next, Enabled, QuoteQualified, AfterStep, StepAllowed;
    var run := TakeOff(bytes);
    CopyBegins(s);
    var s5 := Next(s, Work(0, BeginCopy));
    CopyProgresses(s5, bytes);
    ExecFrom(s, run, 4);
    ExecFrom(s5, run, 5);
    ExecEnd(Next(s5, Work(0, Progress(bytes))), run);
  }

  lemma OtherFails(a: Table, b: Table, p: nat, q: nat, bytes: nat)
    requires p > 0
    ensures Exec(OneInFlight(a, b, p, q, bytes), FailOther()) == Some(OtherFailed(a, b, p, q, bytes))
  {
    hide Exec, QuoteQualified;
    var run := FailOther();
    var s0 := OneInFlight(a, b, p, q, bytes);
    var s1 := Next(s0, Work(1, OpenSource(false)));
    assert s1.jobs == [Held(0, Copying(p - 1, bytes)), Held(1, Finished(FailedResult(0, 0)))] && s1.ledgers == s0.ledgers;
    var s2 := Next(s1, Send(1));
    assert s2.jobs == [Held(0, Copying(p - 1, bytes)), InChannel(FailedResult(0, 0))] && s2.channel == [1] && s2.workers == [Holding(0), Failing];
    var s3 := Next(s2, CancelAndExit(1));
    assert s3 == OtherFailed(a, b, p, q, bytes);
    ExecEnd(s0, run);
    ExecFrom(s0, run, 0);
    ExecFrom(s1, run, 1);
    ExecFrom(s2, run, 2);
    ExecEnd(s3, run);
  }

  lemma FirstEnds(s: Pool, bytes: nat, rows: nat)
    requires Sized(s) && |s.tables| == 2 && s.next == 2 && s.jobsOpen && s.channelOpen && s.channel == [1]
    requires s.jobs == [Held(0, ClosingTarget(TableResult(Tally(1, rows, bytes), false))), InChannel(FailedResult(0, 0))]
    requires s.workers == [Holding(0), Exited(true)] && s.ledgers == [Ledger(true, 1, true, 0), UNOPENED]
    ensures Exec(s, WindUp()) == Exec(s.(
      jobs := [InChannel(TableResult(Tally(1, rows, bytes), false)), InChannel(FailedResult(0, 0))], channel := [1, 0],
      ledgers := [BOTH_CLOSED, UNOPENED], workers := [Idle, Exited(true)]), WindUp()[2..])
  {
    hide Exec, QuoteQualified;
    var run := WindUp();
    var s1 := s.(jobs := [Held(0, Finished(TableResult(Tally(1, rows, bytes), false))), InChannel(FailedResult(0, 0))], ledgers := [BOTH_CLOSED, UNOPENED]);
    assert Next(s, Work(0, CloseTarget(true))) == s1;
    var s2 := s1.(jobs := [InChannel(TableResult(Tally(1, rows, bytes), false)), InChannel(FailedResult(0, 0))], channel := [1, 0], workers := [Idle, Exited(true)]);
    assert Next(s1, Send(0)) == s2;
    ExecEnd(s, run);
    ExecFrom(s, run, 0);
    ExecFrom(s1, run, 1);
  }

  lemma WorkersLeave(s: Pool)
    requires Sized(s) && |s.tables| == 2 && s.next == 2 && s.jobsOpen && s.channelOpen && s.workers == [Idle, Exited(true)]
    ensures Exec(s, WindUp()[2..]) == Exec(s.(workers := [Exited(false), Exited(true)], jobsOpen := false, channelOpen := false), WindUp()[5..])
  {
    hide Exec, AfterStep, StepAllowed, QuoteQualified;
    var run := WindUp();
    var s3 := Next(s, CloseJobs);
    var s4 := Next(s3, Exit(0));
    assert s4.workers == [Exited(false), Exited(true)];
    ExecFrom(s, run, 2);
    ExecFrom(s3, run, 3);
    ExecFrom(s4, run, 4);
  }

  lemma TwoReceived(s: Pool, bytes: nat, rows: nat)
    requires Sized(s) && s.collecting && !s.channelOpen && s.channel == [1, 0] && s.firstErr.None? && s.cancelled
    requires s.jobs == [InChannel(TableResult(Tally(1, rows, bytes), false)), InChannel(FailedResult(0, 0))]
    ensures Exec(s, WindUp()[5..]) == Some(s.(
      jobs := [Collected(TableResult(Tally(1, rows, bytes), false)), Collected(FailedResult(0, 0))],
      channel := [], firstErr := Some(1), collecting := false))
  {
    hide Exec, AfterStep, StepAllowed, QuoteQualified;
    var run := WindUp();
    var s1 := Next(s, Receive);
    assert s1.channel == [0] && s1.jobs == [s.jobs[0], Collected(FailedResult(0, 0))];
    var s2 := Next(s1, Receive);
    assert s2.channel == [] && s2.jobs == [Collected(TableResult(Tally(1, rows, bytes), false)), Collected(FailedResult(0, 0))];
    var s3 := Next(s2, Finish);
    ExecFrom(s, run, 5);
    ExecFrom(s1, run, 6);
    ExecFrom(s2, run, 7);
    ExecEnd(s3, run);
  }

  lemma PoolWindsUp(a: Table, b: Table, p: nat, q: nat, bytes: nat, rows: nat)
    requires p > 0
    ensures var s := OtherFailed(a, b, p, q, bytes);
            Enabled(s, Work(0, CopyEnds(rows))) && Exec(Next(s, Work(0, CopyEnds(rows))), WindUp()) == Some(BothEnded(a, b, p, q, bytes, rows))
  {
    hide Exec, QuoteQualified;
    var s := Next(OtherFailed(a, b, p, q, bytes), Work(0, CopyEnds(rows)));
    assert s.jobs == [Held(0, ClosingTarget(TableResult(Tally(1, rows, bytes), false))), InChannel(FailedResult(0, 0))];
    assert s.ledgers == [Ledger(true, 1, true, 0), UNOPENED];
    assert s.trace == FirstCopy(bytes, rows);
    FirstEnds(s, bytes, rows);
    var sent := s.(
      jobs := [InChannel(TableResult(Tally(1, rows, bytes), false)), InChannel(FailedResult(0, 0))], channel := [1, 0],
      ledgers := [BOTH_CLOSED, UNOPENED], workers := [Idle, Exited(true)]);
    WorkersLeave(sent);
    TwoReceived(sent.(workers := [Exited(false), Exited(true)], jobsOpen := false, channelOpen := false), bytes, rows);
  }

  /** Two tables and two workers: the done event of the first table is shown under the context that the
      failure of the second has cancelled, and the result counts it. An observer that looks at the
      context may never pass it on. */
  lemma DoneUnderCancelledContext(a: Table, b: Table, p: nat, q: nat, bytes: nat, rows: nat)
    requires p > 0 && Quotable(a)
    ensures var before := Exec(Start([a, b], [p, q], 2, false), TakeOff(bytes) + FailOther());
            before.Some? && before.value.cancelled && !before.value.outer && before.value.trace == FirstCopy(bytes, rows)[..2]
    ensures RunEnds(Start([a, b], [p, q], 2, false), TwoTableRun(bytes, rows),
                    Call(Tally(1, rows, bytes), true, false, FirstCopy(bytes, rows), 2, [BOTH_CLOSED, UNOPENED]))
  {
    hide Exec, TakeOff, FailOther, TwoTableRun, QuoteQualified;
    UntilOtherFailed(a, b, p, q, bytes);
    UntilBothEnded(a, b, p, q, bytes, rows);
    CountedOnce(BothEnded(a, b, p, q, bytes, rows), rows, bytes);
  }

  lemma UntilOtherFailed(a: Table, b: Table, p: nat, q: nat, bytes: nat)
    requires p > 0 && Quotable(a)
    ensures Exec(Start([a, b], [p, q], 2, false), TakeOff(bytes) + FailOther()) == Some(OtherFailed(a, b, p, q, bytes))
  {
    hide Exec, Start, TakeOff, FailOther, OneInFlight, OtherFailed, QuoteQualified;
    OneTakesOff(a, b, p, q, bytes);
    OtherFails(a, b, p, q, bytes);
    ExecConcat(Start([a, b], [p, q], 2, false), TakeOff(bytes), FailOther());
  }

  lemma UntilBothEnded(a: Table, b: Table, p: nat, q: nat, bytes: nat, rows: nat)
    requires p > 0 && Quotable(a)
    ensures Exec(Start([a, b], [p, q], 2, false), TwoTableRun(bytes, rows)) == Some(BothEnded(a, b, p, q, bytes, rows))
  {
    hide Exec, Start, Enabled, Next, TakeOff, FailOther, WindUp, OneInFlight, OtherFailed, BothEnded, QuoteQualified;
    UntilOtherFailed(a, b, p, q, bytes);
    PoolWindsUp(a, b, p, q, bytes, rows);
    ExecConcat(Start([a, b], [p, q], 2, false), TakeOff(bytes) + FailOther(), [Work(0, CopyEnds(rows))] + WindUp());
    ExecStep(OtherFailed(a, b, p, q, bytes), Work(0, CopyEnds(rows)), WindUp());
  }

  lemma CountedOnce(end: Pool, rows: nat, bytes: nat)
    requires end.jobs == [Collected(TableResult(Tally(1, rows, bytes), false)), Collected(FailedResult(0, 0))]
    ensures Sum(ResultTallies(Results(end.jobs))) == Tally(1, rows, bytes)
  {
    hide Sum, Plus;
    assert ResultTallies(Results(end.jobs)) == [Tally(1, rows, bytes)] + [ZERO] && [Tally(1, rows, bytes)] == [] + [Tally(1, rows, bytes)];
    SumAppend([Tally(1, rows, bytes)], ZERO);
    SumAppend([], Tally(1, rows, bytes));
    PlusZero(Tally(1, rows, bytes));
    assert Sum([]) == ZERO by { SumZeros(0); assert seq(0, _ => ZERO) == []; }
  }
}
