/** Planning a database and running the plan (cli/sync.go, tui/app.go): what planning guarantees the run. */
module PlannedRun {
  import opened Models
  import opened Events
  import opened Connector
  import opened Closure
  import opened Topology
  import opened Quoting
  import opened Execution
  import opened Planner
  import Pool = CopyPool

  /** Counting has put every name of a plan through quoting. */
  lemma PlannedAreQuotable(server: Server, requested: seq<string>, plan: Plan)
    requires server.Lists()
    requires PlanMeets(server.tables.value, server.deps.value, server.sequences.value, requested, server.replies, plan)
    ensures Pool.AllQuotable(plan.tables)
  {
    hide Selects, SortedTables, KeptGraph, OwnedBy, QuoteQualified;
    var selected, ordered :|
      && Selects(server.tables.value, server.deps.value, requested, selected)
      && SortedTables(selected, KeptGraph(selected, server.deps.value), ordered)
      && Recounted(ordered, plan.tables, server.replies)
      && plan.sequences == OwnedBy(server.sequences.value, KeySet(plan.tables));
    forall j | 0 <= j < |plan.tables| ensures Pool.Quotable(plan.tables[j]) {
      assert Countable(ordered[j], j, server.replies) && plan.tables[j] == WithCount(ordered[j], j, server.replies);
      RowsPlayNoPart(ordered[j], plan.tables[j]);
    }
  }

  lemma RowsPlayNoPart(t: Table, u: Table)
    requires u.schema == t.schema && u.name == t.name
    ensures QuoteQualified(t).Ok? <==> QuoteQualified(u).Ok?
  {
  }

  /** Every connection that any table's copy opened was closed exactly once. */
  ghost predicate AllBalanced(ledgers: seq<Pool.Ledger>) {
    forall j :: 0 <= j < |ledgers| ==> Pool.Balanced(ledgers[j])
  }

  /** A run of planned tables never leaves a connection open, whatever fails: the one case in which a
      source connection stays open is a name that planning has refused already. And only calls that
      fail can make it fail, while its context is live. */
  lemma PlannedRunCloses(r: RunRecord)
    requires IsRun(r) && Pool.AllQuotable(r.plan.tables)
    ensures AllBalanced(r.ledgers)
    ensures !r.cancelled && (forall c :: !r.fails(c)) && !Pool.HasFault(r.poolRun) ==> r.ok
  {
    hide RunGrammar, TableEventsInCopy, ShowsCopies, EachCopied, EachClosed, Skeleton, PoolRanIn, Pool.Balanced, Pool.Quotable, Pool.HasFault;
    assert LedgersBalanced(r.plan.tables, r.ledgers, r.CopyBegun());
    if r.CopyBegun() {
      forall j | 0 <= j < |r.ledgers| ensures Pool.Balanced(r.ledgers[j]) {
        assert Pool.Quotable(r.plan.tables[j]);
      }
    }
  }

  /** Plan and, unless it is a dry run, execute: one run of the plan's tables, and no connection left open
      by either. */
  method PlanAndRun(server: Server, requested: seq<string>, database: string, threads: int, dryRun: bool, fails: Call -> bool)
    returns (planned: Result<Plan, PlanError>, conn: PgxConn?, ok: bool, ghost record: Option<RunRecord>)
    // Planning ends as it does on its own.
    ensures planned.Ok? ==>
              && server.Lists()
              && PlanMeets(server.tables.value, server.deps.value, server.sequences.value, requested, server.replies, planned.value)
    ensures server.Lists() && AllNamed(server.tables.value, requested) ==>
              exists selected, built ::
                && Selects(server.tables.value, server.deps.value, requested, selected)
                && Decides(selected, server.deps.value, server.replies, built) && planned == AfterClose(built, server.closeFails)
    // A plan is run once, unless it is to be shown only.
    ensures record.Some? <==> planned.Ok? && !dryRun
    ensures record.Some? ==> IsRun(record.value) && record.value.plan == SyncPlan(database, planned.value.tables, threads, false)
    ensures record.Some? ==> record.value.fails == fails && record.value.ok == ok
    ensures dryRun || planned.Err? ==> ok == planned.Ok?
    // Nothing stays open, and only calls that fail or a cancelled context can make the run fail.
    ensures conn != null ==> conn.nativeCloses == 1
    ensures record.Some? ==> AllBalanced(record.value.ledgers)
    ensures record.Some? && !record.value.cancelled && (forall c :: !fails(c)) && !Pool.HasFault(record.value.poolRun) ==> ok
  {
    hide PlanMeets, IsRun, AllBalanced, Decides, Selects, AllNamed, Pool.HasFault, Pool.AllQuotable;
    planned, conn := PlanDatabase(server, requested);
    ok, record := planned.Ok?, None;
    if planned.Err? || dryRun {
      return;
    }
    var run := new ExecutionRun(SyncPlan(database, planned.value.tables, threads, false), fails);
    ok := run.Execute();
    record := Some(run.Outcome(ok));
    PlannedAreQuotable(server, requested, planned.value);
    PlannedRunCloses(record.value);
  }
}
