/** A dashboard that watches whole engine runs (tui/app.go): what it gains from one. */
module Watching {
  import opened Models
  import opened Tallies
  import opened Events
  import opened Execution
  import opened Dashboard
  import opened JobEvents
  import Pool = CopyPool

  // ---------- watching a run ----------

  /** The observer of startSyncCmd: events without a database get the one being synced. */
  function Attributed(e: Event, database: string): Event {
    if e.database == "" then e.(database := database) else e
  }

  function AttributedAll(trace: seq<Event>, database: string): seq<Event> {
    seq(|trace|, i requires 0 <= i < |trace| => Attributed(trace[i], database))
  }

  method Watch(p: LiveProgress, database: string, trace: seq<Event>)
    requires p.Valid()
    modifies p
    ensures p.Valid() && p.initial == old(p.initial)
    ensures p.history == old(p.history) + AttributedAll(trace, database)
  {
    hide *;
    NothingAttributed(trace, database);
    for i := 0 to |trace|
      invariant p.Valid() && p.initial == old(p.initial)
      invariant p.history == old(p.history) + AttributedAll(trace[..i], database)
    {
      p.Apply(Attributed(trace[i], database));
      AttributedStep(trace, i, database);
    }
    assert trace[..|trace|] == trace;
  }

  lemma NothingAttributed(trace: seq<Event>, database: string)
    ensures AttributedAll(trace[..0], database) == []
  {
  }

  lemma AttributedStep(trace: seq<Event>, i: nat, database: string)
    requires i < |trace|
    ensures AttributedAll(trace[..i + 1], database) == AttributedAll(trace[..i], database) + [Attributed(trace[i], database)]
  {
  }

  lemma {:induction false} TableEventIsKept(trace: seq<Event>, i: nat)
    requires i < |trace| && IsTableEvent(trace[i])
    ensures trace[i] in TableEventsOf(trace)
  {
    if i < |trace| - 1 {
      TableEventIsKept(trace[..|trace| - 1], i);
    }
  }

  /** What the observer of a run passes on always names the database of that run. */
  lemma RunNamesItsDatabase(r: RunRecord)
    requires IsRun(r)
    ensures forall e :: e in AttributedAll(r.trace, r.plan.database) ==> e.database == r.plan.database
  {
    hide RunGrammar, PoolRanIn, TableEventsInCopy, EachCopied, LedgersBalanced, EachClosed, PoolTroubleIn, TroubleIn, CallsFit, Skeleton, TableEventsOf;
    forall i | 0 <= i < |r.trace| ensures Attributed(r.trace[i], r.plan.database).database == r.plan.database {
      if IsTableEvent(r.trace[i]) {
        TableEventIsKept(r.trace, i);
        assert r.trace[i] in TableEvents(r.plan.tables, r.copies);
      }
    }
  }

  // ---------- one done event for each copied table ----------

  /** The tables that were done, in that order. */
  function DoneJobs(copies: seq<Pool.PoolEvent>): seq<nat> {
    if copies == [] then []
    else
      var before := DoneJobs(copies[..|copies| - 1]);
      var last := copies[|copies| - 1];
      if last.event.CopyDone? then before + [last.job] else before
  }

  function Dones(events: seq<JobEvent>): nat {
    if events == [] then 0 else Dones(events[..|events| - 1]) + if events[|events| - 1].CopyDone? then 1 else 0
  }

  lemma {:induction false} DoneJobsCount(copies: seq<Pool.PoolEvent>, j: nat)
    ensures multiset(DoneJobs(copies))[j] == Dones(Pool.Project(copies, j))
  {
    if copies != [] {
      var init, last := copies[..|copies| - 1], copies[|copies| - 1];
      DoneJobsCount(init, j);
      assert init + [last] == copies;
      Pool.ProjectAppend(init, last, j);
      var events := Pool.Project(init, j);
      assert (events + [last.event])[..|events|] == events;
    }
  }

  lemma {:induction false} FlightHasNoDone(events: seq<JobEvent>, bytes: nat)
    requires InFlight(events, bytes)
    ensures Dones(events) == 0
  {
    if |events| > 1 {
      FlightHasNoDone(events[..|events| - 1], bytes);
    } else {
      assert events[..0] == [];
    }
  }

  /** When every table was copied, the done events name each table exactly once. */
  lemma EachDoneOnce(tables: seq<Table>, copies: seq<Pool.PoolEvent>)
    requires EachCopied(tables, copies) && forall i :: 0 <= i < |copies| ==> copies[i].job < |tables|
    ensures forall j: nat :: multiset(DoneJobs(copies))[j] == if j < |tables| then 1 else 0
  {
    forall j: nat ensures multiset(DoneJobs(copies))[j] == if j < |tables| then 1 else 0 {
      if j < |tables| {
        var events := Pool.Project(copies, j);
        assert Pool.CopiedInFull(events);
        var bytes, rows :| CompleteJob(events, bytes, rows);
        FlightHasNoDone(events[..|events| - 1], bytes);
        DoneJobsCount(copies, j);
      } else {
        DoneJobsInRange(tables, copies);
      }
    }
  }

  lemma {:induction false} DoneJobsInRange(tables: seq<Table>, copies: seq<Pool.PoolEvent>)
    requires forall i :: 0 <= i < |copies| ==> copies[i].job < |tables|
    ensures forall i :: 0 <= i < |DoneJobs(copies)| ==> DoneJobs(copies)[i] < |tables|
  {
    if copies != [] {
      DoneJobsInRange(tables, copies[..|copies| - 1]);
    }
  }

  // ---------- the result rows ----------

  function RowNames(rows: seq<TableRow>): seq<string> {
    seq(|rows|, i requires 0 <= i < |rows| => rows[i].table)
  }

  /** The tables named by the done events of a trace. */
  function DoneNames(trace: seq<Event>): seq<string> {
    if trace == [] then []
    else
      var before := DoneNames(trace[..|trace| - 1]);
      var last := trace[|trace| - 1];
      if last.name.TableCopyDone? then before + [last.table] else before
  }

  lemma {:induction false} RowsGained(initial: string, history: seq<Event>, trace: seq<Event>)
    ensures RowNames(TableRows(initial, history + trace)) == RowNames(TableRows(initial, history)) + DoneNames(trace)
  {
    hide CurrentDB;
    if trace == [] {
      assert history + trace == history;
    } else {
      var init, last := trace[..|trace| - 1], trace[|trace| - 1];
      RowsGained(initial, history, init);
      assert (history + trace)[..|history + trace| - 1] == history + init;
      var rows, more := TableRows(initial, history + init), TableRows(initial, history + trace);
      assert last.name.TableCopyDone? ==> RowNames(more) == RowNames(rows) + [last.table];
    }
  }

  lemma {:induction false} AttributionKeepsNames(trace: seq<Event>, database: string)
    ensures DoneNames(AttributedAll(trace, database)) == DoneNames(trace)
  {
    if trace != [] {
      AttributionKeepsNames(trace[..|trace| - 1], database);
      assert AttributedAll(trace, database)[..|trace| - 1] == AttributedAll(trace[..|trace| - 1], database);
    }
  }

  /** Only table events are done events. */
  lemma {:induction false} NamesOfTableEvents(trace: seq<Event>)
    ensures DoneNames(trace) == DoneNames(TableEventsOf(trace))
  {
    if trace != [] {
      var init, last := trace[..|trace| - 1], trace[|trace| - 1];
      NamesOfTableEvents(init);
      if IsTableEvent(last) {
        assert (TableEventsOf(init) + [last])[..|TableEventsOf(init)|] == TableEventsOf(init);
      }
    }
  }

  function NamesOf(tables: seq<Table>, jobs: seq<nat>): seq<string>
    requires forall i :: 0 <= i < |jobs| ==> jobs[i] < |tables|
  {
    seq(|jobs|, i requires 0 <= i < |jobs| => TableEventName(tables[jobs[i]]))
  }

  lemma {:induction false} NamesOfCopies(tables: seq<Table>, copies: seq<Pool.PoolEvent>)
    requires forall i :: 0 <= i < |copies| ==> copies[i].job < |tables|
    ensures forall i :: 0 <= i < |DoneJobs(copies)| ==> DoneJobs(copies)[i] < |tables|
    ensures DoneNames(TableEvents(tables, copies)) == NamesOf(tables, DoneJobs(copies))
  {
    DoneJobsInRange(tables, copies);
    if copies != [] {
      var init := copies[..|copies| - 1];
      NamesOfCopies(tables, init);
      assert TableEvents(tables, copies)[..|init|] == TableEvents(tables, init);
    }
  }

  /** The done events of a trace that shows a pool's copies name the done tables. */
  lemma TraceNames(tables: seq<Table>, trace: seq<Event>, copies: seq<Pool.PoolEvent>, database: string)
    requires ShowsCopies(tables, trace, copies)
    ensures forall i :: 0 <= i < |DoneJobs(copies)| ==> DoneJobs(copies)[i] < |tables|
    ensures DoneNames(AttributedAll(trace, database)) == NamesOf(tables, DoneJobs(copies))
  {
    AttributionKeepsNames(trace, database);
    NamesOfTableEvents(trace);
    NamesOfCopies(tables, copies);
  }

  // ---------- nothing in flight ----------

  lemma {:induction false} AttributedTableEvents(trace: seq<Event>, database: string)
    ensures TableEventsOf(AttributedAll(trace, database)) == AttributedAll(TableEventsOf(trace), database)
  {
    if trace != [] {
      var init, last := trace[..|trace| - 1], trace[|trace| - 1];
      AttributedTableEvents(init, database);
      assert AttributedAll(trace, database)[..|init|] == AttributedAll(init, database);
      assert AttributedAll(TableEventsOf(init) + [last], database) == AttributedAll(TableEventsOf(init), database) + [Attributed(last, database)];
    } else {
      assert AttributedAll(trace, database) == [];
    }
  }

  predicate EndsDone(tableEvents: seq<Event>) {
    tableEvents != [] && tableEvents[|tableEvents| - 1].name.TableCopyDone?
  }

  /** After a trace whose last table event is done, no table is shown as being copied. */
  lemma {:induction false} NothingLeftInFlight(initial: string, history: seq<Event>, trace: seq<Event>)
    requires EndsDone(TableEventsOf(trace))
    ensures FlightOf(initial, history + trace) == NOTHING
  {
    hide CurrentDB;
    var init, last := trace[..|trace| - 1], trace[|trace| - 1];
    assert (history + trace)[..|history + trace| - 1] == history + init;
    if !IsTableEvent(last) {
      NothingLeftInFlight(initial, history, init);
    }
  }

  lemma CopiesEndDone(tables: seq<Table>, trace: seq<Event>, copies: seq<Pool.PoolEvent>, database: string)
    requires ShowsCopies(tables, trace, copies) && EachCopied(tables, copies) && tables != []
    ensures EndsDone(TableEventsOf(AttributedAll(trace, database)))
  {
    AttributedTableEvents(trace, database);
    assert Pool.CopiedInFull(Pool.Project(copies, 0));
    var last := copies[|copies| - 1];
    var events := Pool.Project(copies, last.job);
    assert Pool.CopiedInFull(events);
    var bytes, rows :| CompleteJob(events, bytes, rows);
    assert events[|events| - 1] == last.event;
  }

  // ---------- end to end ----------

  /** These are runs of the first plans with these results; a failed one is the last. */
  ghost predicate AreRuns(records: seq<RunRecord>, plans: seq<SyncPlan>, fails: nat -> Call -> bool, results: seq<Tally>, ok: bool) {
    && |records| == |results| <= |plans| && (!ok ==> records != [])
    && forall i :: 0 <= i < |records| ==>
         && IsRun(records[i]) && records[i].plan == plans[i] && records[i].fails == fails(i)
         && records[i].copied == results[i] && (records[i].ok <==> ok || i < |records| - 1)
  }

  lemma OneMoreRun(records: seq<RunRecord>, plans: seq<SyncPlan>, fails: nat -> Call -> bool, results: seq<Tally>, record: RunRecord)
    requires AreRuns(records, plans, fails, results, true) && |records| < |plans|
    requires IsRun(record) && record.plan == plans[|records|] && record.fails == fails(|records|)
    ensures AreRuns(records + [record], plans, fails, results + [record.copied], record.ok)
  {
    hide IsRun;
  }

  /** What the observers of these runs saw, one run after another. */
  ghost function TracesOf(records: seq<RunRecord>): seq<Event> {
    if records == [] then []
    else
      var last := records[|records| - 1];
      TracesOf(records[..|records| - 1]) + AttributedAll(last.trace, last.plan.database)
  }

  lemma TracesAppend(records: seq<RunRecord>, record: RunRecord)
    ensures TracesOf(records + [record]) == TracesOf(records) + AttributedAll(record.trace, record.plan.database)
  {
    assert (records + [record])[..|records|] == records;
  }

  lemma NoRuns(plans: seq<SyncPlan>, fails: nat -> Call -> bool)
    ensures AreRuns([], plans, fails, [], true) && TracesOf([]) == []
  {
  }

  /** Every planned table once, in some order. */
  ghost predicate IsPermutation(order: seq<nat>, n: nat) {
    forall j: nat :: multiset(order)[j] == if j < n then 1 else 0
  }

  /** What a dashboard shows after a successful run of this plan. */
  ghost predicate Gained(rows: seq<string>, before: seq<string>, tables: seq<Table>, order: seq<nat>) {
    && IsPermutation(order, |tables|)
    && (forall i :: 0 <= i < |order| ==> order[i] < |tables|)
    && rows == before + NamesOf(tables, order)
  }

  /** End to end: a dashboard to which every event of a successful run was applied has gained exactly
      the tables, rows and bytes of the result, one result row for each planned table, and shows
      nothing in flight. What the screen may miss of them is the subject of ScreenSync. */
  method SyncAndWatch(plan: SyncPlan, fails: Call -> bool, p: LiveProgress) returns (ok: bool, total: Tally, ghost order: seq<nat>, ghost record: RunRecord)
    requires p.Valid()
    modifies p
    // There was a run of this plan, and the dashboard has exactly its events.
    ensures IsRun(record) && record.plan == plan && record.fails == fails && record.ok == ok && record.copied == total
    ensures p.history == old(p.history) + AttributedAll(record.trace, plan.database)
    ensures p.Valid()
    ensures ok && !plan.dryRun ==> total.tables == |plan.tables|
    ensures ok && !plan.dryRun ==> Gained(RowNames(p.tableResults), old(RowNames(p.tableResults)), plan.tables, order)
    ensures ok && !plan.dryRun && plan.tables != [] ==> p.current.table == "" && p.current.bytes == 0
    ensures ok ==> p.queue.done == Plus(old(p.queue).done, total)
    // Applied in full, even a failed run's trace shows a table as done exactly when the result counts it.
    ensures p.queue.done.tables == old(p.queue).done.tables + total.tables
  {
    hide Sum, Plus, RunGrammar, TableEventsInCopy, LedgersBalanced, ShowsCopies, EachCopied, Gained, TableRows, FlightOf, AttributedAll, DoneTally;
    var run := new ExecutionRun(plan, fails);
    ok := run.Execute();
    record := run.Outcome(ok);
    total, order := run.copied, DoneJobs(run.copies);
    ghost var before := p.history;
    Watch(p, plan.database, run.trace);
    DoneTallyConcat(before, AttributedAll(run.trace, plan.database));
    AttributionKeepsTally(run.trace, plan.database);
    PlusTables(DoneTally(before), DoneTally(run.trace));
    if ok && !plan.dryRun {
      RunGains(plan, p.initial, before, run.trace, run.copies);
    }
  }

  lemma RunGains(plan: SyncPlan, initial: string, before: seq<Event>, trace: seq<Event>, copies: seq<Pool.PoolEvent>)
    requires ShowsCopies(plan.tables, trace, copies) && EachCopied(plan.tables, copies)
    ensures var h := before + AttributedAll(trace, plan.database);
      && Gained(RowNames(TableRows(initial, h)), RowNames(TableRows(initial, before)), plan.tables, DoneJobs(copies))
      && (plan.tables != [] ==> FlightOf(initial, h) == NOTHING)
  {
    hide TableRows, FlightOf, AttributedAll, EachCopied, Dones;
    RowsGained(initial, before, AttributedAll(trace, plan.database));
    TraceNames(plan.tables, trace, copies, plan.database);
    EachDoneOnce(plan.tables, copies);
    if plan.tables != [] {
      CopiesEndDone(plan.tables, trace, copies, plan.database);
      NothingLeftInFlight(initial, before, AttributedAll(trace, plan.database));
    }
  }

  lemma PlusTables(a: Tally, b: Tally)
    ensures Plus(a, b).tables == a.tables + b.tables
  {
  }

  lemma AttributionKeepsTally(trace: seq<Event>, database: string)
    ensures DoneTally(AttributedAll(trace, database)) == DoneTally(trace)
  {
    assert EventTallies(AttributedAll(trace, database)) == EventTallies(trace);
  }
}
