/** Running a plan: ten stages under one context, with deferred clean-up (native/native.go).
    Which calls of servers and tools fail is a parameter; the context may be cancelled at any
    moment, but is never un-cancelled. */
module Execution {
  import opened Models
  import opened Tallies
  import opened Events
  import opened Progress
  import opened Connector
  import Pool = CopyPool

  datatype SyncPlan = SyncPlan(database: string, tables: seq<Table>, threads: int, dryRun: bool)

  /** tableEventName: schema.name, or whichever part is present. */
  function TableEventName(t: Table): string {
    if t.schema == "" then t.name else if t.name == "" then t.schema else t.schema + "." + t.name
  }

  function LifecycleEvent(name: EventName, database: string, rows: nat, bytes: nat): Event {
    Event(name, database, "", rows, 0, bytes, 0.0)
  }

  function TableEvent(tables: seq<Table>, e: Pool.PoolEvent): Event
    requires e.job < |tables|
  {
    var t := tables[e.job];
    var (name, rows, bytes) :=
      match e.event
      case CopyStart => (TableCopyStart, 0, 0)
      case CopyProgress(b) => (TableCopyProgress, 0, b)
      case CopyDone(b, r) => (TableCopyDone, r, b);
    var estimated := if e.event.CopyProgress? then TableEstimate(t) else t.sizeBytes;
    Event(name, "", TableEventName(t), rows, estimated, bytes, Percent(bytes, estimated))
  }

  function TableEvents(tables: seq<Table>, trace: seq<Pool.PoolEvent>): seq<Event>
    requires forall i :: 0 <= i < |trace| ==> trace[i].job < |tables|
  {
    seq(|trace|, i requires 0 <= i < |trace| => TableEvent(tables, trace[i]))
  }

  lemma TableEventsTally(tables: seq<Table>, trace: seq<Pool.PoolEvent>)
    requires forall i :: 0 <= i < |trace| ==> trace[i].job < |tables|
    ensures DoneTally(TableEvents(tables, trace)) == Pool.DoneTally(trace)
  {
    assert EventTallies(TableEvents(tables, trace)) == Pool.TraceTallies(trace);
  }

  /** Table events appended while the copy stage runs leave the lifecycle events alone. */
  lemma {:induction false} AppendTableEvents(trace: seq<Event>, added: seq<Event>)
    requires Copying(trace) && TableEventsInCopy(trace)
    requires forall i :: 0 <= i < |added| ==> IsTableEvent(added[i])
    ensures Skeleton(trace + added) == Skeleton(trace) && TableEventsInCopy(trace + added)
    ensures TableEventsOf(trace + added) == TableEventsOf(trace) + added
  {
    hide Skeleton, TableEventsOf, TableEventsInCopy, IsTableEvent;
    if added == [] {
      assert trace + added == trace;
    } else {
      var init := added[..|added| - 1];
      var last := added[|added| - 1];
      AppendTableEvents(trace, init);
      assert trace + added == (trace + init) + [last];
      SkeletonAppend(trace + init, last);
      TableEventsAppend(trace + init, last);
      AppendKeepsPlaces(trace + init, last);
    }
  }

  lemma AppendKeepsPlaces(trace: seq<Event>, e: Event)
    requires TableEventsInCopy(trace) && (IsTableEvent(e) ==> Copying(trace))
    ensures TableEventsInCopy(trace + [e])
  {
    forall i | 0 <= i < |trace + [e]| && IsTableEvent((trace + [e])[i]) ensures Copying((trace + [e])[..i]) {
      assert (trace + [e])[..i] == trace[..i];
      if i == |trace| { assert trace[..i] == trace; }
    }
  }

  /** The table events shown are the pool's, and each table's own events follow their grammar. */
  ghost predicate ShowsCopies(tables: seq<Table>, trace: seq<Event>, copies: seq<Pool.PoolEvent>) {
    && (forall i :: 0 <= i < |copies| ==> copies[i].job < |tables|)
    && TableEventsOf(trace) == TableEvents(tables, copies)
    && forall j :: 0 <= j < |tables| ==> Pool.TableGrammar(Pool.Project(copies, j))
  }

  lemma ShowsOther(tables: seq<Table>, trace: seq<Event>, copies: seq<Pool.PoolEvent>, e: Event)
    requires ShowsCopies(tables, trace, copies) && !IsTableEvent(e)
    ensures ShowsCopies(tables, trace + [e], copies)
  {
    hide TableEventsOf, IsTableEvent;
    TableEventsAppend(trace, e);
  }

  lemma RecordedTrace(tables: seq<Table>, trace: seq<Event>, poolTrace: seq<Pool.PoolEvent>)
    requires Copying(trace) && TableEventsInCopy(trace) && ShowsCopies(tables, trace, []) && DoneTally(trace) == ZERO
    requires forall i :: 0 <= i < |poolTrace| ==> poolTrace[i].job < |tables|
    requires forall j :: 0 <= j < |tables| ==> Pool.TableGrammar(Pool.Project(poolTrace, j))
    ensures var t := trace + TableEvents(tables, poolTrace);
      && Skeleton(t) == Skeleton(trace) && TableEventsInCopy(t) && ShowsCopies(tables, t, poolTrace)
      && DoneTally(t) == Pool.DoneTally(poolTrace)
  {
    hide Sum, Plus, DoneTally, Pool.DoneTally, TableEventsInCopy, TableEventsOf, Pool.TableGrammar, Pool.Project;
    var added := TableEvents(tables, poolTrace);
    AppendTableEvents(trace, added);
    DoneTallyConcat(trace, added);
    TableEventsTally(tables, poolTrace);
    PlusZero(DoneTally(added));
    assert TableEventsOf(trace) + added == added;
  }

  /** Every table was copied once, from start to done. */
  ghost predicate EachCopied(tables: seq<Table>, copies: seq<Pool.PoolEvent>) {
    forall j :: 0 <= j < |tables| ==> Pool.CopiedInFull(Pool.Project(copies, j))
  }

  /** Every table had a source and a target connection, each closed exactly once. */
  ghost predicate EachClosed(tables: seq<Table>, ledgers: seq<Pool.Ledger>) {
    |ledgers| == |tables| && forall j :: 0 <= j < |tables| ==> ledgers[j] == Pool.BOTH_CLOSED
  }

  /** The calls of servers and tools outside the pool, in the order a run makes them. */
  datatype Call =
    | ConnectSource | BeginSnapshot | ExportSnapshotId | DumpSchema | ListExtensions | RecreateDatabase
    | ConnectLocal | LoadSchema | DumpArchive | RestoreArchive | SetSequences
    | CloseTarget | RollBack | CloseSource

  const COPY_STAGE := 6

  /** The calls of a run that goes all the way, in order, and how many of them the first stages make. */
  const CALLS := [ConnectSource, BeginSnapshot, ExportSnapshotId, DumpSchema, ListExtensions, RecreateDatabase,
                  ConnectLocal, LoadSchema, DumpArchive, RestoreArchive, SetSequences]
  const CALLED := [0, 3, 4, 5, 6, 7, 8, 8, 9, 10, 11]

  /** The first `k` stages made their calls, and all of them succeeded. */
  ghost predicate CalledFor(k: nat, made: seq<Call>, fails: Call -> bool, poolFault: bool) {
    && k < |CALLED|
    && made == CALLS[..CALLED[k]]
    && (forall i :: 0 <= i < |made| ==> !fails(made[i]))
    && (k > COPY_STAGE ==> !poolFault)
  }

  /** Stage `k` failed: its last call did, or the copy went wrong. */
  ghost predicate BrokeIn(k: nat, made: seq<Call>, fails: Call -> bool, poolFault: bool, poolTrouble: bool) {
    && k < |STAGES|
    && (k > COPY_STAGE ==> !poolFault)
    && if k == COPY_STAGE then made == CALLS[..CALLED[k]] && poolTrouble && forall i :: 0 <= i < |made| ==> !fails(made[i])
       else
         && CALLED[k] < |made| <= CALLED[k + 1]
         && made == CALLS[..|made|]
         && fails(made[|made| - 1])
         && forall i :: 0 <= i < |made| - 1 ==> !fails(made[i])
  }

  /** What the events say of a stage that is one call: done says it succeeded, failed that it failed, and
      it is made only once the stage has started. */
  ghost predicate StageTells(names: seq<EventName>, stage: Stage, made: seq<Call>, call: Call, failed: bool) {
    && (StageDone(stage) in names ==> call in made && !failed)
    && (StageFailed(stage) in names ==> call in made && failed)
    && (call in made ==> StageStart(stage) in names)
  }

  /** The calls a run makes before its clean-up: in this order, each only after the one before it
      succeeded, and each inside its own stage. */
  ghost predicate CallsFit(names: seq<EventName>, made: seq<Call>, fails: Call -> bool, poolFault: bool, poolTrouble: bool) {
    && made <= [ConnectSource, BeginSnapshot, ExportSnapshotId, DumpSchema, ListExtensions, RecreateDatabase,
                ConnectLocal, LoadSchema, DumpArchive, RestoreArchive, SetSequences]
    && (forall i :: 0 <= i < |made| - 1 ==> !fails(made[i]))
    && StageTells(names, DumpPreData, made, DumpSchema, fails(DumpSchema))
    && StageTells(names, CheckExtensions, made, ListExtensions, fails(ListExtensions))
    && StageTells(names, ResetTarget, made, RecreateDatabase, fails(RecreateDatabase))
    && StageTells(names, ConnectTarget, made, ConnectLocal, fails(ConnectLocal))
    && StageTells(names, ApplyPreData, made, LoadSchema, fails(LoadSchema))
    && StageTells(names, DumpPostData, made, DumpArchive, fails(DumpArchive))
    && StageTells(names, ApplyPostData, made, RestoreArchive, fails(RestoreArchive))
    && StageTells(names, RepairSequences, made, SetSequences, fails(SetSequences))
    // The snapshot is three calls, the copy a run of the pool.
    && (StageDone(Snapshot) in names ==> ExportSnapshotId in made && !fails(ConnectSource) && !fails(BeginSnapshot) && !fails(ExportSnapshotId))
    && (StageFailed(Snapshot) in names ==> fails(ConnectSource) || fails(BeginSnapshot) || fails(ExportSnapshotId))
    && (ConnectSource in made ==> StageStart(Snapshot) in names)
    && (StageDone(CopyTables) in names ==> !poolFault)
    && (StageFailed(CopyTables) in names ==> poolTrouble)
  }

  lemma NextCall(k: nat, made: seq<Call>, fails: Call -> bool, poolFault: bool, poolTrouble: bool)
    requires (IsOpaque(k) || k == 4) && CalledFor(k, made, fails, poolFault)
    ensures var call := if k == 4 then ConnectLocal else CallOf(k);
            if fails(call) then BrokeIn(k, made + [call], fails, poolFault, poolTrouble) else CalledFor(k + 1, made + [call], fails, poolFault)
  {
  }

  lemma FirstCalls(fails: Call -> bool, poolFault: bool, poolTrouble: bool)
    ensures CalledFor(0, [], fails, poolFault)
    ensures fails(ConnectSource) ==> BrokeIn(0, [ConnectSource], fails, poolFault, poolTrouble)
    ensures !fails(ConnectSource) && fails(BeginSnapshot) ==> BrokeIn(0, [ConnectSource, BeginSnapshot], fails, poolFault, poolTrouble)
    ensures !fails(ConnectSource) && !fails(BeginSnapshot) ==>
              var made := [ConnectSource, BeginSnapshot, ExportSnapshotId];
              if fails(ExportSnapshotId) then BrokeIn(0, made, fails, poolFault, poolTrouble) else CalledFor(1, made, fails, poolFault)
  {
    assert [ConnectSource] == CALLS[..1] && [ConnectSource, BeginSnapshot] == CALLS[..2];
    assert [ConnectSource, BeginSnapshot, ExportSnapshotId] == CALLS[..3];
  }

  /** The copy makes none of these calls; its own run decides. */
  lemma CopyCalls(made: seq<Call>, fails: Call -> bool, faultBefore: bool, poolFault: bool, poolTrouble: bool)
    requires CalledFor(COPY_STAGE, made, fails, faultBefore)
    ensures poolTrouble ==> BrokeIn(COPY_STAGE, made, fails, poolFault, poolTrouble)
    ensures !poolFault ==> CalledFor(COPY_STAGE + 1, made, fails, poolFault)
  {
  }

  lemma DryCalls(fails: Call -> bool, poolFault: bool, poolTrouble: bool)
    ensures CallsFit([SyncStart, SyncDone], [], fails, poolFault, poolTrouble)
  {
  }

  lemma AllTableEvents(tables: seq<Table>, trace: seq<Pool.PoolEvent>)
    requires forall i :: 0 <= i < |trace| ==> trace[i].job < |tables|
    ensures forall i :: 0 <= i < |TableEvents(tables, trace)| ==> IsTableEvent(TableEvents(tables, trace)[i])
  {
  }

  lemma {:induction false} InDonePairs(k: nat, e: EventName)
    requires k <= |STAGES|
    ensures e in DonePairs(k) <==> (e.StageStart? || e.StageDone?) && e.stage in STAGES[..k]
  {
    if k > 0 {
      InDonePairs(k - 1, e);
      assert STAGES[..k] == STAGES[..k - 1] + [STAGES[k - 1]];
    }
  }

  /** What the names of a run that is over say of a stage: exactly the first `k` are done. */
  lemma StageNames(names: seq<EventName>, k: nat, tail: seq<EventName>, ok: bool, m: nat)
    requires k <= |STAGES| && m < |STAGES| && EndsAfter(names, k, tail, ok)
    ensures StageDone(STAGES[m]) in names <==> m < k
    ensures StageFailed(STAGES[m]) in names <==> m == k && tail != []
    ensures StageStart(STAGES[m]) in names <==> m < k || (m == k && tail != [])
  {
    hide DonePairs;
    InDonePairs(k, StageDone(STAGES[m]));
    InDonePairs(k, StageFailed(STAGES[m]));
    InDonePairs(k, StageStart(STAGES[m]));
    InFirst(k, m);
    var last := if ok then SyncDone else SyncFailed;
    assert names == [SyncStart] + DonePairs(k) + tail + [last];
    if k < |STAGES| && STAGES[k] == STAGES[m] {
      StagesDistinct(k, m);
    }
  }

  lemma InFirst(k: nat, m: nat)
    requires k <= |STAGES| && m < |STAGES|
    ensures STAGES[m] in STAGES[..k] <==> m < k
  {
    if m < k {
      assert STAGES[..k][m] == STAGES[m];
    }
    forall i | 0 <= i < k && STAGES[i] == STAGES[m] ensures m < k {
      StagesDistinct(i, m);
    }
  }

  /** Which calls a beginning of the list holds, and that they come in order. */
  lemma InCalls(made: seq<Call>, i: nat)
    requires made <= CALLS && i < |CALLS|
    ensures CALLS[i] in made <==> i < |made|
    ensures i < |made| ==> made[i] == CALLS[i]
  {
    if i < |made| {
      assert made[i] == CALLS[i];
    }
    forall j | 0 <= j < |made| && made[j] == CALLS[i] ensures j == i {
      assert made[j] == CALLS[j];
      CallsDistinct(i, j);
    }
  }

  lemma CallsDistinct(i: nat, j: nat)
    requires i < |CALLS| && j < |CALLS| && CALLS[i] == CALLS[j]
    ensures i == j
  {
  }

  lemma CalledGrows(a: nat, b: nat)
    requires a <= b < |CALLED|
    ensures CALLED[a] <= CALLED[b]
  {
  }

  lemma StageCall(names: seq<EventName>, k: nat, tail: seq<EventName>, ok: bool, made: seq<Call>, fails: Call -> bool,
                  poolFault: bool, poolTrouble: bool, m: nat)
    requires k <= |STAGES| && EndsAfter(names, k, tail, ok) && (IsOpaque(m) || m == 4)
    requires if tail == [] then CalledFor(k, made, fails, poolFault) else BrokeIn(k, made, fails, poolFault, poolTrouble)
    ensures var call := if m == 4 then ConnectLocal else CallOf(m); StageTells(names, STAGES[m], made, call, fails(call))
  {
    hide EndsAfter;
    var i := CALLED[m];
    assert CALLED[m + 1] == i + 1 && CALLS[i] == if m == 4 then ConnectLocal else CallOf(m);
    StageNames(names, k, tail, ok, m);
    InCalls(made, i);
    if m < k {
      CalledGrows(m + 1, k);
    } else if k < m {
      CalledGrows(k + 1, m);
    }
  }

  lemma CallsOfRun(names: seq<EventName>, k: nat, tail: seq<EventName>, ok: bool, made: seq<Call>, fails: Call -> bool, poolFault: bool, poolTrouble: bool)
    requires k <= |STAGES| && EndsAfter(names, k, tail, ok)
    requires if tail == [] then CalledFor(k, made, fails, poolFault) else BrokeIn(k, made, fails, poolFault, poolTrouble)
    ensures CallsFit(names, made, fails, poolFault, poolTrouble)
  {
    hide EndsAfter, StageTells;
    StageCall(names, k, tail, ok, made, fails, poolFault, poolTrouble, 1);
    StageCall(names, k, tail, ok, made, fails, poolFault, poolTrouble, 2);
    StageCall(names, k, tail, ok, made, fails, poolFault, poolTrouble, 3);
    StageCall(names, k, tail, ok, made, fails, poolFault, poolTrouble, 4);
    StageCall(names, k, tail, ok, made, fails, poolFault, poolTrouble, 5);
    StageCall(names, k, tail, ok, made, fails, poolFault, poolTrouble, 7);
    StageCall(names, k, tail, ok, made, fails, poolFault, poolTrouble, 8);
    StageCall(names, k, tail, ok, made, fails, poolFault, poolTrouble, 9);
    SnapshotCalls(names, k, tail, ok, made, fails, poolFault, poolTrouble);
    StageNames(names, k, tail, ok, COPY_STAGE);
    assert made <= CALLS && CALLS == [ConnectSource, BeginSnapshot, ExportSnapshotId, DumpSchema, ListExtensions, RecreateDatabase,
                                      ConnectLocal, LoadSchema, DumpArchive, RestoreArchive, SetSequences];
  }

  lemma SnapshotCalls(names: seq<EventName>, k: nat, tail: seq<EventName>, ok: bool, made: seq<Call>, fails: Call -> bool,
                      poolFault: bool, poolTrouble: bool)
    requires k <= |STAGES| && EndsAfter(names, k, tail, ok)
    requires if tail == [] then CalledFor(k, made, fails, poolFault) else BrokeIn(k, made, fails, poolFault, poolTrouble)
    ensures StageDone(Snapshot) in names ==> ExportSnapshotId in made && !fails(ConnectSource) && !fails(BeginSnapshot) && !fails(ExportSnapshotId)
    ensures StageFailed(Snapshot) in names ==> fails(ConnectSource) || fails(BeginSnapshot) || fails(ExportSnapshotId)
    ensures ConnectSource in made ==> StageStart(Snapshot) in names
  {
    hide EndsAfter;
    StageNames(names, k, tail, ok, 0);
    InCalls(made, 0);
    InCalls(made, 1);
    InCalls(made, 2);
    if k > 0 {
      CalledGrows(1, k);
    }
  }

  /** Stages that are one opaque call. */
  predicate IsOpaque(k: nat) {
    k == 1 || k == 2 || k == 3 || k == 5 || k == 7 || k == 8 || k == 9
  }

  function CallOf(k: nat): Call
    requires IsOpaque(k)
  {
    match k
    case 1 => DumpSchema
    case 2 => ListExtensions
    case 3 => RecreateDatabase
    case 5 => LoadSchema
    case 7 => DumpArchive
    case 8 => RestoreArchive
    case _ => SetSequences
  }

  lemma StagesDistinctFrom(k: nat)
    requires k < |STAGES|
    ensures STAGES[k] == CopyTables <==> k == COPY_STAGE
  {
  }

  ghost predicate PoolTroubleIn(tables: seq<Table>, poolRun: seq<Pool.Action>) {
    Pool.HasFault(poolRun) || !Pool.AllQuotable(tables)
  }

  /** Something the run depends on goes wrong: a call of its own, one of the pool's, or a table's name. */
  ghost predicate TroubleIn(tables: seq<Table>, fails: Call -> bool, poolRun: seq<Pool.Action>) {
    (exists c :: fails(c)) || PoolTroubleIn(tables, poolRun)
  }

  /** The copy stage was a run of the pool, with these events, totals and connections. */
  ghost predicate PoolRanIn(plan: SyncPlan, poolRun: seq<Pool.Action>, copies: seq<Pool.PoolEvent>, copied: Tally, ledgers: seq<Pool.Ledger>) {
    exists atCall, failed, outer, handedOut ::
      Pool.EndsLike(plan.tables, plan.threads, atCall, poolRun, Pool.Call(copied, failed, outer, copies, handedOut, ledgers))
  }

  /** What a run that is over leaves behind. */
  datatype RunRecord = RunRecord(
    plan: SyncPlan, fails: Call -> bool, ok: bool, cancelled: bool,
    trace: seq<Event>, stages: set<Stage>, copied: Tally,
    copies: seq<Pool.PoolEvent>, ledgers: seq<Pool.Ledger>, poolRun: seq<Pool.Action>, made: seq<Call>)
  {
    ghost predicate CopyBegun() {
      StageStart(CopyTables) in Skeleton(trace)
    }

    ghost predicate Trouble() {
      TroubleIn(plan.tables, fails, poolRun)
    }
  }

  ghost predicate LifecycleNamed(trace: seq<Event>, database: string) {
    forall i :: 0 <= i < |trace| && !IsTableEvent(trace[i]) ==> trace[i].database == database && trace[i].table == ""
  }

  lemma NamedAppend(trace: seq<Event>, database: string, added: seq<Event>)
    requires LifecycleNamed(trace, database)
    requires forall i :: 0 <= i < |added| ==> IsTableEvent(added[i]) || (added[i].database == database && added[i].table == "")
    ensures LifecycleNamed(trace + added, database)
  {
  }

  /** What is true of every run, for every pattern of failures and cancellation. */
  ghost predicate IsRun(r: RunRecord) {
    // The lifecycle events follow the grammar, and Stages holds exactly the done ones.
    && RunGrammar(Skeleton(r.trace), r.stages, r.ok, r.plan.dryRun)
    // It succeeds only when every call succeeded and every name can be quoted, and with a context
    // that stays live it does succeed then.
    && (r.ok && !r.plan.dryRun ==> !r.Trouble())
    && (!r.cancelled && !r.Trouble() ==> r.ok)
    // The calls it made, and what each stage's end says of its own call.
    && CallsFit(Skeleton(r.trace), r.made, r.fails, Pool.HasFault(r.poolRun), PoolTroubleIn(r.plan.tables, r.poolRun))
    // The copies are a run of the pool.
    && (r.CopyBegun() ==> PoolRanIn(r.plan, r.poolRun, r.copies, r.copied, r.ledgers))
    // The last event carries the totals.
    && r.trace != []
    && r.trace[|r.trace| - 1] == Event(if r.ok then SyncDone else SyncFailed, r.plan.database, "", r.copied.rows, 0, r.copied.bytes, 0.0)
    // Lifecycle events name the database and no table.
    && LifecycleNamed(r.trace, r.plan.database)
    // Table events lie inside the copy stage.
    && TableEventsInCopy(r.trace)
    // They are the pool's, and each table's own events are none, a beginning, or a complete copy.
    && ShowsCopies(r.plan.tables, r.trace, r.copies)
    // A successful run copied every planned table once, and its totals are those of the done events.
    && (r.ok && !r.plan.dryRun ==> r.copied.tables == |r.plan.tables| && EachCopied(r.plan.tables, r.copies))
    && (r.ok ==> r.copied == DoneTally(r.trace))
    // From the copy stage on there is a ledger of the pool's connections for every table, closed
    // once each; a successful run had both for every table.
    && LedgersBalanced(r.plan.tables, r.ledgers, r.CopyBegun())
    && (r.ok && !r.plan.dryRun ==> EachClosed(r.plan.tables, r.ledgers))
    // Even a failed run counts a table exactly when its done event was shown.
    && r.copied.tables == DoneTally(r.trace).tables
  }

  class ExecutionRun {
    const plan: SyncPlan
    const fails: Call -> bool
    var cancelled: bool
    var trace: seq<Event>
    var stages: set<Stage>
    var copied: Tally
    var archives: nat
    ghost var connections: set<PgxConn>
    ghost var ledgers: seq<Pool.Ledger>
    ghost var copies: seq<Pool.PoolEvent>  // what the pool reported, by table
    ghost var poolRun: seq<Pool.Action>    // what its actors did
    ghost var made: seq<Call>              // the calls of the stages so far

    /** The result counts the tables whose done event was shown. */
    ghost predicate Consistent()
      reads this`trace, this`copied, this`copies
    {
      && TableEventsInCopy(trace)
      && copied.tables == DoneTally(trace).tables
      && ShowsCopies(plan.tables, trace, copies)
      && LifecycleNamed(trace, plan.database)
    }

    /** The first `k` stages made their calls, and all of them succeeded. */
    ghost predicate Called(k: nat)
      reads this`made, this`poolRun
    {
      CalledFor(k, made, fails, Pool.HasFault(poolRun))
    }

    /** Stage `k` failed at its call. */
    ghost predicate Broke(k: nat)
      reads this`made, this`poolRun
    {
      BrokeIn(k, made, fails, Pool.HasFault(poolRun), PoolTrouble())
    }

    /** `k` stages are done and none is running. */
    ghost predicate Between(k: nat)
      reads this`trace, this`stages, this`copied, this`copies, this`made, this`poolRun
    {
      && k <= |STAGES|
      && Consistent()
      && Skeleton(trace) == [SyncStart] + DonePairs(k)
      && stages == FirstStages(k)
      && Called(k)
    }

    /** Stage `k` has been announced. */
    ghost predicate Inside(k: nat)
      reads this`trace, this`stages, this`copied, this`copies
    {
      && k < |STAGES|
      && Consistent()
      && Skeleton(trace) == [SyncStart] + DonePairs(k) + [StageStart(STAGES[k])]
      && stages == FirstStages(k)
    }

    /** The run stopped after `k` done stages, perhaps in the next one. */
    ghost predicate Stopped(k: nat)
      reads this`trace, this`stages, this`copied, this`copies, this`made, this`poolRun
    {
      && k <= |STAGES|
      && Consistent()
      && stages == FirstStages(k)
      && exists tail :: FailedTail(k, tail) && Skeleton(trace) == [SyncStart] + DonePairs(k) + tail && if tail == [] then Called(k) else Broke(k)
    }

    ghost predicate Halted()
      reads this`trace, this`stages, this`copied, this`copies, this`made, this`poolRun
    {
      exists k: nat :: Stopped(k)
    }

    ghost predicate CopyBegun()
      reads this`trace
    {
      StageStart(CopyTables) in Skeleton(trace)
    }

    /** The result's totals are those of the done events. */
    ghost predicate Exact()
      reads this`trace, this`stages, this`copied, this`copies
    {
      copied == DoneTally(trace)
    }

    ghost predicate AllCopied()
      reads this`trace, this`stages, this`copied, this`copies, this`ledgers
    {
      Exact() && copied.tables == |plan.tables| && EachCopied(plan.tables, copies) && EachClosed(plan.tables, ledgers)
    }

    ghost predicate Trouble()
      reads this`poolRun
    {
      TroubleIn(plan.tables, fails, poolRun)
    }

    ghost predicate PoolTrouble()
      reads this`poolRun
    {
      PoolTroubleIn(plan.tables, poolRun)
    }

    lemma TroubleFrom(c: Call)
      ensures fails(c) || PoolTrouble() ==> Trouble()
    {
    }

    ghost predicate PoolRan()
      reads this`poolRun, this`copies, this`copied, this`ledgers
    {
      PoolRanIn(plan, poolRun, copies, copied, ledgers)
    }

    ghost function Outcome(ok: bool): RunRecord
      reads this
    {
      RunRecord(plan, fails, ok, cancelled, trace, stages, copied, copies, ledgers, poolRun, made)
    }

    constructor (plan: SyncPlan, fails: Call -> bool)
      ensures this.plan == plan && this.fails == fails && !cancelled && trace == [] && stages == {} && copied == ZERO
      ensures archives == 0 && connections == {} && ledgers == [] && copies == [] && poolRun == [] && made == []
    {
      this.plan, this.fails := plan, fails;
      cancelled, trace, stages, copied, archives := false, [], {}, ZERO, 0;
      connections, ledgers, copies, poolRun, made := {}, [], [], [], [];
    }

    /** Time passes: the context may get cancelled. */
    method Wait()
      modifies this`cancelled
      ensures old(cancelled) ==> cancelled
    {
      var now: bool := *;
      cancelled := cancelled || now;
    }

    method Emit(e: Event)
      requires Consistent() && !IsTableEvent(e) && e.database == plan.database && e.table == ""
      modifies this`trace
      ensures Consistent()
      ensures trace == old(trace) + [e] && Skeleton(trace) == old(Skeleton(trace)) + [e.name]
      ensures CopyBegun() == (old(CopyBegun()) || e.name == StageStart(CopyTables))
      ensures DoneTally(trace) == old(DoneTally(trace))
    {
      hide DoneTally, ShowsCopies, TableEventsInCopy, LifecycleNamed;
      NamedAppend(trace, plan.database, [e]);
      SkeletonAppend(trace, e);
      AppendKeepsPlaces(trace, e);
      DoneTallyOfOther(trace, e);
      ShowsOther(plan.tables, trace, copies, e);
      trace := trace + [e];
    }

    /** The first half of runVoidStage: a cancelled context stops the run before the stage. */
    method BeginStage(k: nat) returns (stopped: bool)
      requires k < |STAGES| && Between(k)
      modifies this`cancelled, this`trace
      ensures old(cancelled) ==> cancelled
      ensures stopped ==> Halted() && trace == old(trace) && old(cancelled)
      ensures !stopped ==> CopyBegun() == (old(CopyBegun()) || k == COPY_STAGE)
      ensures !stopped ==> Inside(k) && Called(k) && !old(cancelled) && DoneTally(trace) == old(DoneTally(trace))
    {
      hide DoneTally, FirstStages, Consistent, CopyBegun, CalledFor, BrokeIn, Pool.HasFault, PoolTrouble;
      if cancelled {
        assert FailedTail(k, []);
        assert Skeleton(trace) == [SyncStart] + DonePairs(k) + [];
        assert Stopped(k);
        return true;
      }
      StagesDistinctFrom(k);
      Emit(LifecycleEvent(StageStart(STAGES[k]), plan.database, 0, 0));
      Wait();
      return false;
    }

    /** The second half: failed or done, and the result's stage record. */
    method EndStage(k: nat, failed: bool)
      requires Inside(k) && if failed then Broke(k) else Called(k + 1)
      modifies this`cancelled, this`trace, this`stages
      ensures old(cancelled) ==> cancelled
      ensures failed ==> Halted()
      ensures !failed ==> Between(k + 1)
      ensures DoneTally(trace) == old(DoneTally(trace)) && CopyBegun() == old(CopyBegun())
    {
      hide DoneTally, FirstStages, Consistent, CopyBegun, Called, Broke, Skeleton, DonePairs;
      Wait();
      InsideFacts(k);
      ghost var names := Skeleton(trace);
      if failed {
        Emit(LifecycleEvent(StageFailed(STAGES[k]), plan.database, 0, 0));
        FailedStage(names, k);
        assert Stopped(k);
      } else {
        stages := stages + {STAGES[k]};
        Emit(LifecycleEvent(StageDone(STAGES[k]), plan.database, 0, 0));
        DoneStage(names, k);
      }
    }

    lemma InsideFacts(k: nat)
      requires Inside(k)
      ensures Consistent() && k < |STAGES| && stages == FirstStages(k)
      ensures Skeleton(trace) == [SyncStart] + DonePairs(k) + [StageStart(STAGES[k])]
    {
    }

    /** A stage that is one opaque call. */
    method OpaqueStage(k: nat) returns (failed: bool)
      requires IsOpaque(k) && Between(k)
      modifies this`cancelled, this`trace, this`stages, this`made
      ensures old(cancelled) ==> failed && cancelled
      ensures if failed then cancelled || Trouble() else !fails(CallOf(k))
      ensures failed ==> Halted()
      ensures !failed ==> Between(k + 1)
      ensures DoneTally(trace) == old(DoneTally(trace)) && CopyBegun() == old(CopyBegun())
      ensures old(AllCopied()) ==> AllCopied()
    {
      hide CalledFor, BrokeIn, Pool.HasFault, PoolTrouble, Consistent, DoneTally, FirstStages, Skeleton, DonePairs, Halted, CopyBegun;
      failed := BeginStage(k);
      if !failed {
        failed := fails(CallOf(k));
        TroubleFrom(CallOf(k));
        NextCall(k, made, fails, Pool.HasFault(poolRun), PoolTrouble());
        made := made + [CallOf(k)];
        EndStage(k, failed);
      }
    }

    /** Opening a connection either fails or gives a new one, which the run then owes a close. */
    method Connect(call: Call) returns (conn: PgxConn?)
      modifies this`connections, this`made
      ensures made == old(made) + [call]
      ensures conn == null <==> fails(call)
      ensures conn == null ==> connections == old(connections)
      ensures conn != null ==> fresh(conn) && conn.Valid() && !conn.closed && connections == old(connections) + {conn}
    {
      made := made + [call];
      if fails(call) {
        return null;
      }
      conn := new PgxConn();
      connections := connections + {conn};
    }

    /** Exports a snapshot on a connection; a failed export rolls back and closes it. */
    method ExportSnapshot(conn: PgxConn) returns (failed: bool)
      requires conn.Valid() && !conn.closed
      modifies conn, this`made
      ensures conn.Valid() && (!failed ==> !conn.closed)
      ensures made == if fails(BeginSnapshot) then old(made) + [BeginSnapshot] else old(made) + [BeginSnapshot, ExportSnapshotId]
      ensures failed <==> fails(BeginSnapshot) || fails(ExportSnapshotId)
    {
      made := made + [BeginSnapshot];
      if fails(BeginSnapshot) {
        return true;
      }
      made := made + [ExportSnapshotId];
      if fails(ExportSnapshotId) {
        var closeFailed := conn.Close(fails(CloseSource));
        return true;
      }
      return false;
    }

    method OpenSnapshot() returns (snapshot: PgxConn?)
      requires Between(0) && Exact() && connections == {} && made == []
      modifies this`cancelled, this`trace, this`stages, this`connections, this`made
      ensures snapshot == null ==> Halted() && forall c :: c in connections ==> c.nativeCloses == 1
      ensures snapshot != null ==> Between(1) && fresh(snapshot) && snapshot.Valid() && !snapshot.closed && connections == {snapshot}
      ensures Exact() && CopyBegun() == old(CopyBegun()) && |connections| <= 1
      ensures snapshot != null <==> !old(cancelled) && !fails(ConnectSource) && !fails(BeginSnapshot) && !fails(ExportSnapshotId)
      ensures old(cancelled) ==> cancelled
      ensures forall c :: c in connections ==> fresh(c)
    {
      hide Consistent, Between, Inside, Stopped, Halted, DoneTally, FirstStages, Skeleton, DonePairs, CopyBegun, CalledFor, BrokeIn, Pool.HasFault, PoolTrouble;
      var stopped := BeginStage(0);
      if stopped {
        return null;
      }
      FirstCalls(fails, Pool.HasFault(poolRun), PoolTrouble());
      var conn := Connect(ConnectSource);
      assert made == [ConnectSource];
      if conn == null {
        EndStage(0, true);
        return null;
      }
      var failed := ExportSnapshot(conn);
      assert made == if fails(BeginSnapshot) then [ConnectSource, BeginSnapshot] else [ConnectSource, BeginSnapshot, ExportSnapshotId];
      EndStage(0, failed);
      if failed {
        // The connection may be closed already; closing again is harmless.
        var closeFailed := conn.Close(fails(CloseSource));
        return null;
      }
      return conn;
    }

    /** Shows the pool's events to the observer and adds its totals. */
    method Record(total: Tally, poolTrace: seq<Pool.PoolEvent>)
      requires Inside(6) && copied == ZERO && copies == [] && DoneTally(trace) == ZERO
      requires forall i :: 0 <= i < |poolTrace| ==> poolTrace[i].job < |plan.tables|
      requires forall j :: 0 <= j < |plan.tables| ==> Pool.TableGrammar(Pool.Project(poolTrace, j))
      requires total.tables == Pool.DoneTally(poolTrace).tables
      modifies this`trace, this`copied, this`copies
      ensures Inside(6) && copied == total && copies == poolTrace && DoneTally(trace) == Pool.DoneTally(poolTrace)
      ensures CopyBegun() == old(CopyBegun())
    {
      hide Sum, Plus, EventTallies, DoneTally, Pool.DoneTally, ShowsCopies, TableEventsInCopy, TableEvents, LifecycleNamed, Skeleton, DonePairs, FirstStages;
      var added := TableEvents(plan.tables, poolTrace);
      assert Copying(trace);
      RecordedTrace(plan.tables, trace, poolTrace);
      AllTableEvents(plan.tables, poolTrace);
      NamedAppend(trace, plan.database, added);
      trace := trace + added;
      copied := Tally(copied.tables + total.tables, copied.rows + total.rows, copied.bytes + total.bytes);
      copies := poolTrace;
    }

    /** The copy stage: the worker pool's events, and its totals added whether it failed or not. */
    method CopyStage(snapshot: PgxConn) returns (failed: bool)
      // The workers adopt the exported snapshot, which lives as long as its connection is open; nothing
      // in the stage touches that connection.
      requires snapshot.Valid() && !snapshot.closed
      requires Between(6) && copied == ZERO && copies == [] && ledgers == [] && !CopyBegun() && DoneTally(trace) == ZERO
      modifies this`cancelled, this`trace, this`stages, this`copied, this`copies, this`ledgers, this`poolRun
      ensures snapshot.Valid() && !snapshot.closed
      ensures old(cancelled) ==> cancelled
      ensures if failed then cancelled || Trouble() else cancelled || !PoolTrouble()
      ensures CopyBegun() ==> PoolRan()
      ensures failed ==> Halted()
      ensures !failed ==> Between(7) && Exact()
      // The pool alone may come back empty-handed without an error, but only under a cancelled context.
      ensures !failed ==> cancelled || AllCopied()
      ensures LedgersBalanced(plan.tables, ledgers, CopyBegun())
    {
      hide Consistent, Between, Inside, Stopped, Halted, DoneTally, FirstStages, Skeleton, DonePairs, LedgersBalanced, CopyBegun,
           Pool.DoneTally, Pool.CopyContract, Pool.EndsLike, Pool.FailsWhen, Pool.HasFault, Pool.AllQuotable,
           EachCopied, EachClosed, Pool.TableGrammar, Pool.Project, Trouble, CalledFor, BrokeIn;
      NoLedgers(plan.tables);
      failed := BeginStage(6);
      if failed {
        return;
      }
      ghost var atCall := cancelled;
      var total, poolFailed, outer, poolTrace, handedOut, poolLedgers, run := Pool.CopyTables(plan.tables, plan.threads, cancelled);
      cancelled := outer;
      ghost var faultBefore := Pool.HasFault(poolRun);
      ledgers, poolRun := poolLedgers, run;
      CopyContractFacts(plan.tables, handedOut, total, poolFailed, outer, poolTrace, poolLedgers);
      assert if poolFailed then PoolTrouble() else !Pool.HasFault(run) && (outer || !PoolTrouble()) by { PoolDecides(plan.tables, poolFailed, outer, run); }
      Record(total, poolTrace);
      assert Pool.EndsLike(plan.tables, plan.threads, atCall, poolRun, Pool.Call(copied, poolFailed, outer, copies, handedOut, ledgers));
      TroubleFrom(ConnectSource);
      CopyCalls(made, fails, faultBefore, Pool.HasFault(poolRun), PoolTrouble());
      EndStage(6, poolFailed);
      failed := poolFailed;
    }

    /** Everything that needs the target connection. */
    method WithTarget(snapshot: PgxConn) returns (failed: bool)
      requires snapshot.Valid() && !snapshot.closed
      requires Between(5) && copied == ZERO && copies == [] && ledgers == [] && !CopyBegun() && DoneTally(trace) == ZERO && archives == 0
      modifies this`cancelled, this`trace, this`stages, this`copied, this`copies, this`ledgers, this`archives, this`poolRun, this`made
      ensures old(cancelled) ==> cancelled
      ensures if failed then cancelled || Trouble() else !PoolTrouble() && !fails(LoadSchema) && !fails(DumpArchive) && !fails(RestoreArchive) && !fails(SetSequences)
      ensures CopyBegun() ==> PoolRan()
      ensures failed ==> Halted()
      ensures !failed ==> Between(10) && AllCopied()
      ensures archives == 0
      ensures LedgersBalanced(plan.tables, ledgers, CopyBegun())
    {
      hide Consistent, Between, Inside, Stopped, Halted, DoneTally, FirstStages, Skeleton, DonePairs, LedgersBalanced, EachCopied, EachClosed, CopyBegun,
           Trouble, PoolTrouble, PoolRan;
      NoLedgers(plan.tables);
      failed := OpaqueStage(5);
      if failed { return; }
      failed := CopyStage(snapshot);
      if failed { return; }
      failed := FinishTarget();
    }

    /** The stages after the copy; the archive of the post-data dump is removed on every way out. */
    method FinishTarget() returns (failed: bool)
      requires Between(7) && archives == 0 && (cancelled || AllCopied())
      modifies this`cancelled, this`trace, this`stages, this`archives, this`made
      // A context cancelled during the copy stops the run here, before an incomplete copy is built upon.
      ensures old(cancelled) ==> cancelled && failed
      ensures if failed then Halted() && (cancelled || Trouble())
              else Between(10) && AllCopied() && !fails(DumpArchive) && !fails(RestoreArchive) && !fails(SetSequences)
      ensures CopyBegun() == old(CopyBegun()) && archives == 0
    {
      hide Consistent, Between, Inside, Stopped, Halted, DoneTally, FirstStages, Skeleton, DonePairs, CopyBegun, Trouble, PoolTrouble;
      failed := OpaqueStage(7);
      if failed { return; }
      archives := archives + 1;
      failed := OpaqueStage(8);
      if !failed {
        failed := OpaqueStage(9);
      }
      archives := archives - 1;
    }

    /** Every call made between opening the snapshot and closing it succeeds. */
    predicate SnapshotCallsWork() {
      && !fails(DumpSchema) && !fails(ListExtensions) && !fails(RecreateDatabase) && !fails(ConnectLocal) && !fails(LoadSchema)
      && !fails(DumpArchive) && !fails(RestoreArchive) && !fails(SetSequences) && !fails(CloseTarget)
    }

    /** The schema dump, the extension check and the reset of the target. */
    method PrepareTarget() returns (failed: bool)
      requires Between(1)
      modifies this`cancelled, this`trace, this`stages, this`made
      ensures old(cancelled) ==> cancelled
      ensures if failed then Halted() && (cancelled || Trouble())
              else Between(4) && !fails(DumpSchema) && !fails(ListExtensions) && !fails(RecreateDatabase)
      ensures DoneTally(trace) == old(DoneTally(trace)) && CopyBegun() == old(CopyBegun())
    {
      hide Consistent, Between, Inside, Stopped, Halted, DoneTally, FirstStages, Skeleton, DonePairs, CopyBegun, Trouble, PoolTrouble;
      failed := OpaqueStage(1);
      if !failed {
        failed := OpaqueStage(2);
      }
      if !failed {
        failed := OpaqueStage(3);
      }
    }

    method ConnectTargetStage() returns (target: PgxConn?)
      requires Between(4)
      modifies this`cancelled, this`trace, this`stages, this`connections, this`made
      ensures old(cancelled) ==> cancelled
      ensures target == null ==> Halted() && (cancelled || Trouble()) && connections == old(connections)
      ensures target != null ==> Between(5) && !fails(ConnectLocal) && fresh(target) && target.Valid() && !target.closed
      ensures target != null ==> connections == old(connections) + {target}
      ensures DoneTally(trace) == old(DoneTally(trace)) && CopyBegun() == old(CopyBegun())
    {
      hide Consistent, Between, Inside, Stopped, Halted, DoneTally, FirstStages, Skeleton, DonePairs, CopyBegun, Trouble, PoolTrouble, CalledFor, BrokeIn, Pool.HasFault;
      var stopped := BeginStage(4);
      if stopped {
        return null;
      }
      NextCall(4, made, fails, Pool.HasFault(poolRun), PoolTrouble());
      target := Connect(ConnectLocal);
      TroubleFrom(ConnectLocal);
      EndStage(4, target == null);
    }

    /** Everything under the snapshot connection; the target connection is closed on every way out. */
    method WithSnapshot(snapshot: PgxConn) returns (failed: bool)
      requires snapshot.Valid() && !snapshot.closed
      requires Between(1) && copied == ZERO && copies == [] && ledgers == [] && !CopyBegun() && DoneTally(trace) == ZERO && archives == 0
      modifies this`cancelled, this`trace, this`stages, this`copied, this`copies, this`ledgers, this`archives, this`connections, this`poolRun, this`made
      ensures old(cancelled) ==> cancelled
      ensures if failed then cancelled || Trouble() else !PoolTrouble() && SnapshotCallsWork()
      ensures CopyBegun() ==> PoolRan()
      ensures failed ==> Halted()
      ensures !failed ==> Between(10) && AllCopied()
      ensures archives == 0
      ensures LedgersBalanced(plan.tables, ledgers, CopyBegun())
      ensures old(connections) <= connections
      ensures forall c :: c in connections - old(connections) ==> fresh(c) && c.nativeCloses == 1
      ensures |connections| <= |old(connections)| + 1 && (!failed ==> |connections| == |old(connections)| + 1)
    {
      hide Consistent, Between, Inside, Stopped, Halted, DoneTally, FirstStages, Skeleton, DonePairs, LedgersBalanced, EachCopied, EachClosed, CopyBegun,
           Trouble, PoolTrouble, PoolRan;
      NoLedgers(plan.tables);
      failed := PrepareTarget();
      if failed { return; }
      var target := ConnectTargetStage();
      if target == null {
        return true;
      }
      failed := WithTarget(snapshot);
      var closeFailed := target.Close(fails(CloseTarget));
      if closeFailed {
        TroubleFrom(CloseTarget);
        CompleteIsStopped();
      }
      failed := failed || closeFailed;
    }

    /** A run whose last stage is done but whose clean-up failed has stopped too. */
    lemma CompleteIsStopped()
      ensures Between(10) ==> Halted()
    {
      if Between(10) {
        assert FailedTail(10, []);
        assert Skeleton(trace) == [SyncStart] + DonePairs(10) + [];
        assert Stopped(10);
      }
    }

    method ExecuteStages() returns (failed: bool)
      requires Between(0) && copied == ZERO && copies == [] && ledgers == [] && made == []
      requires !CopyBegun() && DoneTally(trace) == ZERO && archives == 0 && connections == {}
      modifies this
      ensures old(cancelled) ==> cancelled
      ensures if failed then cancelled || Trouble() else !Trouble()
      ensures CopyBegun() ==> PoolRan()
      ensures failed ==> Halted()
      ensures !failed ==> Between(10) && AllCopied()
      ensures archives == 0
      ensures LedgersBalanced(plan.tables, ledgers, CopyBegun())
      ensures forall c :: c in connections ==> c.nativeCloses == 1
      ensures |connections| <= 2 && (!failed ==> |connections| == 2)
    {
      hide Consistent, Between, Inside, Stopped, Halted, DoneTally, FirstStages, Skeleton, DonePairs, LedgersBalanced, EachCopied, EachClosed, CopyBegun,
           Trouble, PoolTrouble, PoolRan;
      NoLedgers(plan.tables);
      var snapshot := OpenSnapshot();
      if snapshot == null {
        TroubleFrom(ConnectSource);
        TroubleFrom(BeginSnapshot);
        TroubleFrom(ExportSnapshotId);
        return true;
      }
      failed := WithSnapshot(snapshot);
      var rollbackFailed := fails(RollBack);
      var closeFailed := snapshot.Close(fails(CloseSource));
      if rollbackFailed || closeFailed {
        TroubleFrom(RollBack);
        TroubleFrom(CloseSource);
        CompleteIsStopped();
      }
      failed := failed || rollbackFailed || closeFailed;
      if !failed {
        EveryCallWorked();
      }
    }

    lemma EveryCallWorked()
      requires SnapshotCallsWork() && !fails(ConnectSource) && !fails(BeginSnapshot) && !fails(ExportSnapshotId)
      requires !fails(RollBack) && !fails(CloseSource) && !PoolTrouble()
      ensures !Trouble()
    {
      forall c ensures !fails(c) {
        match c {
          case ConnectSource =>
          case BeginSnapshot =>
          case ExportSnapshotId =>
          case DumpSchema =>
          case ListExtensions =>
          case RecreateDatabase =>
          case ConnectLocal =>
          case LoadSchema =>
          case DumpArchive =>
          case RestoreArchive =>
          case SetSequences =>
          case CloseTarget =>
          case RollBack =>
          case CloseSource =>
        }
      }
    }

    /** One run, for every pattern of failures and cancellation. */
    method Execute() returns (ok: bool)
      requires trace == [] && stages == {} && copied == ZERO && archives == 0 && connections == {} && ledgers == [] && copies == [] && made == []
      modifies this
      ensures IsRun(Outcome(ok))
      // Every connection of the run itself is closed exactly once, and a successful run had two:
      // the snapshot's and the target's. The archive is gone.
      ensures forall c :: c in connections ==> c.nativeCloses == 1
      ensures |connections| <= 2 && (ok && !plan.dryRun ==> |connections| == 2)
      ensures archives == 0
    {
      hide RunGrammar, EndsAfter, Between, Stopped, LedgersBalanced, DoneTally, Skeleton, DonePairs, FirstStages, TableEventsInCopy, ShowsCopies, EachCopied, EachClosed,
           TroubleIn, PoolRanIn, CallsFit, CalledFor, BrokeIn, LifecycleNamed, Pool.HasFault;
      EmptyTrace(plan.tables, plan.database);
      NoLedgers(plan.tables);
      NotBegun();
      Emit(LifecycleEvent(SyncStart, plan.database, 0, 0));
      NothingDone();
      if plan.dryRun {
        FinishSuccess();
        return true;
      }
      var failed := ExecuteStages();
      if failed {
        FinishFailure();
      } else {
        FinishSuccess();
      }
      ok := !failed;
    }

    /** sync.done closes the trace of a dry run, or of one whose stages are all done. */
    method FinishSuccess()
      requires if plan.dryRun then Between(0) && made == [] else Between(10)
      modifies this`trace
      ensures MadeFits()
      ensures Consistent() && RunGrammar(Skeleton(trace), stages, true, plan.dryRun) && CopyBegun() == old(CopyBegun())
      ensures trace == old(trace) + [LifecycleEvent(SyncDone, plan.database, copied.rows, copied.bytes)]
      ensures DoneTally(trace) == old(DoneTally(trace))
    {
      hide RunGrammar, EndsAfter, DoneTally, Skeleton, DonePairs, FirstStages, Consistent, CopyBegun, CalledFor, BrokeIn, CallsFit, Pool.HasFault;
      ghost var names := Skeleton(trace);
      BetweenFacts(if plan.dryRun then 0 else 10);
      Emit(LifecycleEvent(SyncDone, plan.database, copied.rows, copied.bytes));
      if plan.dryRun {
        NothingBetween(names, stages);
        DryRunGrammar(names + [SyncDone]);
        DryCalls(fails, Pool.HasFault(poolRun), PoolTrouble());
      } else {
        CompleteGrammar(names, stages, made, fails, Pool.HasFault(poolRun), PoolTrouble());
      }
    }

    /** sync.failed closes the trace of a run that stopped on the way. */
    method FinishFailure()
      requires Halted() && !plan.dryRun
      modifies this`trace
      ensures MadeFits()
      ensures Consistent() && RunGrammar(Skeleton(trace), stages, false, plan.dryRun) && CopyBegun() == old(CopyBegun())
      ensures trace == old(trace) + [LifecycleEvent(SyncFailed, plan.database, copied.rows, copied.bytes)]
      ensures DoneTally(trace) == old(DoneTally(trace))
    {
      hide RunGrammar, EndsAfter, Stopped, DoneTally, Skeleton, DonePairs, FirstStages, Consistent, CopyBegun, CalledFor, BrokeIn, CallsFit, Pool.HasFault;
      ghost var names := Skeleton(trace);
      ghost var k: nat :| Stopped(k);
      StoppedFacts(k);
      Emit(LifecycleEvent(SyncFailed, plan.database, copied.rows, copied.bytes));
      FailedGrammar(names, k, stages, made, fails, Pool.HasFault(poolRun), PoolTrouble());
    }

    /** The calls made fit the events shown. */
    ghost predicate MadeFits()
      reads this`trace, this`made, this`poolRun
    {
      CallsFit(Skeleton(trace), made, fails, Pool.HasFault(poolRun), PoolTrouble())
    }

    lemma NotBegun()
      requires Skeleton(trace) == []
      ensures !CopyBegun()
    {
    }

    lemma NothingDone()
      requires Consistent() && Skeleton(trace) == [SyncStart] && stages == {} && made == []
      ensures Between(0)
    {
      FirstCalls(fails, Pool.HasFault(poolRun), PoolTrouble());
      assert FirstStages(0) == {};
      assert [SyncStart] + DonePairs(0) == [SyncStart];
    }

    lemma StoppedFacts(k: nat)
      requires Stopped(k)
      ensures Consistent() && k <= |STAGES| && stages == FirstStages(k)
      ensures exists tail :: FailedTail(k, tail) && Skeleton(trace) == [SyncStart] + DonePairs(k) + tail && if tail == [] then Called(k) else Broke(k)
    {
    }

    lemma BetweenFacts(k: nat)
      requires Between(k)
      ensures Consistent() && k <= |STAGES| && stages == FirstStages(k) && Skeleton(trace) == [SyncStart] + DonePairs(k) && Called(k)
    {
    }
  }

  lemma FailedStage(names: seq<EventName>, k: nat)
    requires k < |STAGES| && names == [SyncStart] + DonePairs(k) + [StageStart(STAGES[k])]
    ensures exists tail :: FailedTail(k, tail) && names + [StageFailed(STAGES[k])] == [SyncStart] + DonePairs(k) + tail
  {
    var tail := [StageStart(STAGES[k]), StageFailed(STAGES[k])];
    assert FailedTail(k, tail);
    assert names + [StageFailed(STAGES[k])] == [SyncStart] + DonePairs(k) + tail;
  }

  lemma DoneStage(names: seq<EventName>, k: nat)
    requires k < |STAGES| && names == [SyncStart] + DonePairs(k) + [StageStart(STAGES[k])]
    ensures names + [StageDone(STAGES[k])] == [SyncStart] + DonePairs(k + 1)
    ensures FirstStages(k + 1) == FirstStages(k) + {STAGES[k]}
  {
  }

  lemma EmptyTrace(tables: seq<Table>, database: string)
    ensures Skeleton([]) == [] && DoneTally([]) == ZERO && TableEventsInCopy([])
    ensures ShowsCopies(tables, [], []) && LifecycleNamed([], database)
  {
    assert EventTallies([]) == [];
  }

  lemma DryRunGrammar(names: seq<EventName>)
    requires names == [SyncStart, SyncDone]
    ensures RunGrammar(names, {}, true, true)
  {
  }

  lemma FailedGrammar(names: seq<EventName>, k: nat, done: set<Stage>, made: seq<Call>, fails: Call -> bool, poolFault: bool, poolTrouble: bool)
    requires k <= |STAGES| && done == FirstStages(k)
    requires exists tail :: FailedTail(k, tail) && names == [SyncStart] + DonePairs(k) + tail
               && if tail == [] then CalledFor(k, made, fails, poolFault) else BrokeIn(k, made, fails, poolFault, poolTrouble)
    ensures RunGrammar(names + [SyncFailed], done, false, false)
    ensures CallsFit(names + [SyncFailed], made, fails, poolFault, poolTrouble)
  {
    hide FailedTail, DonePairs, FirstStages, CalledFor, BrokeIn, CallsFit;
    var tail :| FailedTail(k, tail) && names == [SyncStart] + DonePairs(k) + tail
      && if tail == [] then CalledFor(k, made, fails, poolFault) else BrokeIn(k, made, fails, poolFault, poolTrouble);
    assert EndsAfter(names + [SyncFailed], k, tail, false);
    CallsOfRun(names + [SyncFailed], k, tail, false, made, fails, poolFault, poolTrouble);
  }

  lemma NothingBetween(names: seq<EventName>, done: set<Stage>)
    requires names == [SyncStart] + DonePairs(0) && done == FirstStages(0)
    ensures names + [SyncDone] == [SyncStart, SyncDone] && done == {}
  {
  }

  lemma CompleteGrammar(names: seq<EventName>, done: set<Stage>, made: seq<Call>, fails: Call -> bool, poolFault: bool, poolTrouble: bool)
    requires done == FirstStages(10) && names == [SyncStart] + DonePairs(10) && CalledFor(10, made, fails, poolFault)
    ensures RunGrammar(names + [SyncDone], done, true, false)
    ensures CallsFit(names + [SyncDone], made, fails, poolFault, poolTrouble)
  {
    hide DonePairs, FirstStages, CalledFor, BrokeIn, CallsFit;
    assert EndsAfter(names + [SyncDone], 10, [], true);
    CallsOfRun(names + [SyncDone], 10, [], true, made, fails, poolFault, poolTrouble);
  }

  /** Each table's connections, as far as the pool got to open them, were closed exactly once;
      only the source of a table whose name cannot be quoted stays open. */
  ghost predicate LedgersBalanced(tables: seq<Table>, ledgers: seq<Pool.Ledger>, begun: bool) {
    if !begun then ledgers == []
    else |ledgers| == |tables| && forall j :: 0 <= j < |tables| ==>
      (Pool.Balanced(ledgers[j]) <==> Pool.Quotable(tables[j]) || !ledgers[j].targetOpened)
  }

  lemma NoLedgers(tables: seq<Table>)
    ensures LedgersBalanced(tables, [], false)
  {
  }

  lemma PoolDecides(tables: seq<Table>, failed: bool, outer: bool, run: seq<Pool.Action>)
    requires Pool.FailsWhen(tables, failed, outer, run)
    ensures if failed then Pool.HasFault(run) || !Pool.AllQuotable(tables) else !Pool.HasFault(run) && (outer || Pool.AllQuotable(tables))
  {
  }

  lemma CopyContractFacts(tables: seq<Table>, handedOut: nat, total: Tally, failed: bool, outer: bool, trace: seq<Pool.PoolEvent>, ledgers: seq<Pool.Ledger>)
    requires Pool.CopyContract(tables, handedOut, total, failed, outer, trace, ledgers)
    ensures total.tables == Pool.DoneTally(trace).tables
    ensures !failed ==> total == Pool.DoneTally(trace)
    ensures !failed && !outer ==> total.tables == |tables| && EachCopied(tables, trace) && EachClosed(tables, ledgers)
    ensures forall j :: 0 <= j < |tables| ==> Pool.TableGrammar(Pool.Project(trace, j))
    ensures forall i :: 0 <= i < |trace| ==> trace[i].job < |tables|
    ensures LedgersBalanced(tables, ledgers, true)
  {
  }

  // ---------- what follows for every run ----------

  /** The target is recreated only after the snapshot was exported, the schema dumped and the
      extensions checked: those calls were made before and succeeded, and their stages are done. */
  lemma ResetIsEarned(r: RunRecord)
    requires IsRun(r) && RecreateDatabase in r.made
    ensures [ConnectSource, BeginSnapshot, ExportSnapshotId, DumpSchema, ListExtensions, RecreateDatabase] <= r.made
    ensures !r.fails(ConnectSource) && !r.fails(BeginSnapshot) && !r.fails(ExportSnapshotId) && !r.fails(DumpSchema) && !r.fails(ListExtensions)
    ensures StageDone(Snapshot) in Skeleton(r.trace) && StageDone(DumpPreData) in Skeleton(r.trace) && StageDone(CheckExtensions) in Skeleton(r.trace)
  {
    hide RunGrammar, PoolRanIn, TableEventsInCopy, ShowsCopies, EachCopied, LedgersBalanced, EachClosed, LifecycleNamed, PoolTroubleIn, TroubleIn, Skeleton;
    InCalls(r.made, 5);
    assert CALLS[..6] <= r.made;
    ReachedByStart(Skeleton(r.trace), r.stages, r.ok, r.plan.dryRun);
  }

  lemma ReachedByStart(names: seq<EventName>, done: set<Stage>, ok: bool, dryRun: bool)
    requires RunGrammar(names, done, ok, dryRun) && StageStart(ResetTarget) in names
    ensures StageDone(Snapshot) in names && StageDone(DumpPreData) in names && StageDone(CheckExtensions) in names
  {
    var i :| 0 <= i < |names| && names[i] == StageStart(ResetTarget);
    ResetIsGuarded(names, done, ok, dryRun, i);
  }

  /** A successful run shows all ten stages, start and done, in this order. */
  lemma SuccessfulRunShows(r: RunRecord)
    requires IsRun(r) && r.ok && !r.plan.dryRun
    ensures Skeleton(r.trace) == [SyncStart] + (
              [StageStart(Snapshot), StageDone(Snapshot)] + [StageStart(DumpPreData), StageDone(DumpPreData)] +
              [StageStart(CheckExtensions), StageDone(CheckExtensions)] + [StageStart(ResetTarget), StageDone(ResetTarget)] +
              [StageStart(ConnectTarget), StageDone(ConnectTarget)] + [StageStart(ApplyPreData), StageDone(ApplyPreData)] +
              [StageStart(CopyTables), StageDone(CopyTables)] + [StageStart(DumpPostData), StageDone(DumpPostData)] +
              [StageStart(ApplyPostData), StageDone(ApplyPostData)] + [StageStart(RepairSequences), StageDone(RepairSequences)]) + [SyncDone]
    ensures r.made == [ConnectSource, BeginSnapshot, ExportSnapshotId, DumpSchema, ListExtensions, RecreateDatabase,
                       ConnectLocal, LoadSchema, DumpArchive, RestoreArchive, SetSequences]
  {
    hide CallsFit, PoolRanIn, TableEventsInCopy, ShowsCopies, EachCopied, LedgersBalanced, EachClosed, LifecycleNamed, PoolTroubleIn, TroubleIn, Skeleton;
    TenPairs();
    AllMade(Skeleton(r.trace), r.made, r.fails, Pool.HasFault(r.poolRun), PoolTroubleIn(r.plan.tables, r.poolRun));
  }

  lemma AllMade(names: seq<EventName>, made: seq<Call>, fails: Call -> bool, poolFault: bool, poolTrouble: bool)
    requires CallsFit(names, made, fails, poolFault, poolTrouble) && StageDone(RepairSequences) in names
    ensures made == CALLS
  {
    InCalls(made, 10);
  }

  lemma TenPairs()
    ensures DonePairs(10) ==
              [StageStart(Snapshot), StageDone(Snapshot)] + [StageStart(DumpPreData), StageDone(DumpPreData)] +
              [StageStart(CheckExtensions), StageDone(CheckExtensions)] + [StageStart(ResetTarget), StageDone(ResetTarget)] +
              [StageStart(ConnectTarget), StageDone(ConnectTarget)] + [StageStart(ApplyPreData), StageDone(ApplyPreData)] +
              [StageStart(CopyTables), StageDone(CopyTables)] + [StageStart(DumpPostData), StageDone(DumpPostData)] +
              [StageStart(ApplyPostData), StageDone(ApplyPostData)] + [StageStart(RepairSequences), StageDone(RepairSequences)]
  {
    hide DonePairs;
    NextPair(0);
    NextPair(1);
    NextPair(2);
    NextPair(3);
    NextPair(4);
    NextPair(5);
    NextPair(6);
    NextPair(7);
    NextPair(8);
    NextPair(9);
  }

  lemma NextPair(k: nat)
    requires k < |STAGES|
    ensures DonePairs(k + 1) == if k == 0 then [StageStart(STAGES[0]), StageDone(STAGES[0])] else DonePairs(k) + [StageStart(STAGES[k]), StageDone(STAGES[k])]
  {
  }

  /** The table events a run shows are, one for one, what its pool reported of the planned tables. */
  lemma ShownTableEvent(r: RunRecord, i: nat)
    requires IsRun(r) && i < |r.copies|
    ensures |TableEventsOf(r.trace)| == |r.copies| && r.copies[i].job < |r.plan.tables|
    ensures var e := TableEventsOf(r.trace)[i];
            var t := r.plan.tables[r.copies[i].job];
      && e.database == ""
      && (t.schema != "" && t.name != "" ==> e.table == t.schema + "." + t.name)
      && (t.schema == "" ==> e.table == t.name)
      && (t.name == "" ==> e.table == t.schema)
      && match r.copies[i].event
         case CopyStart => e.name == TableCopyStart && e.rows == 0 && e.bytes == 0 && e.estimated == t.sizeBytes
         case CopyProgress(b) => e.name == TableCopyProgress && e.rows == 0 && e.bytes == b
                                 && e.estimated == (if t.sizeBytes > 0 then t.sizeBytes else t.rows)
         case CopyDone(b, rows) => e.name == TableCopyDone && e.rows == rows && e.bytes == b && e.estimated == t.sizeBytes
  {
    hide RunGrammar, PoolRanIn, TableEventsInCopy, EachCopied, LedgersBalanced, EachClosed, LifecycleNamed, PoolTroubleIn, TroubleIn, CallsFit, Skeleton, Percent;
    assert TableEventsOf(r.trace) == TableEvents(r.plan.tables, r.copies);
    SizeElseRows(r.plan.tables[r.copies[i].job]);
  }
}
