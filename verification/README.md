# pgsync: a verified model of planning, copying, progress and the tool cache

pgsync copies a PostgreSQL database, or some of its tables, from a remote server to a local one. It closes the
requested tables under foreign keys, orders them parents first, copies them with a bounded worker pool inside a
ten-stage run, reports progress to a live dashboard, and keeps the PostgreSQL tools it needs in a
content-addressed cache. This project models those parts in Dafny and proves what they promise. The SQL itself is
opaque text.

`dafny verify dfyconfig.toml` checks everything.

## How it is built

| files | what they model | main results |
|---|---|---|
| `Strings`, `Models`, `KeyGraph` | keys, string order, foreign-key graphs | Kahn's order is the least topological order; what it leaves out is exactly what lies on or below a cycle; it commutes with restriction to a parent-closed part |
| `Topology`, `Closure`, `Planner`, `Connector` | `TopoSort`, `FKClosure`, `Plan` as loops over mutable maps and queues; connections | refinement of the graph facts; exactly which plans are FK-complete; exactly when planning succeeds |
| `Quoting`, `SequenceRepair` | identifier and literal quoting, sequence repair | a lexer reads every quoted name back; the repair order depends on the sequences alone |
| `JobEvents`, `CopyPipe`, `CopyPool`, `CopyRefinement` | one copy as two goroutines over a rendezvous pipe; the worker pool; how the first fits into the second | invariants of every step, no deadlock, a measure every step lowers, exactly when a call fails and what a caller may conclude |
| `Tallies`, `Events`, `Progress`, `Execution`, `PlannedRun` | sums, the event trace, the throttled reader, the ten-stage run with deferred clean-up, planning and running together | the trace grammar, exactly when a run succeeds, soundness of success, every connection closed once |
| `Dashboard`, `Watching`, `BytesShown`, `QueueReport` | the dashboard counters, a dashboard to which whole runs are applied, its byte counters, a queue of databases | counters are folds of the history; end-to-end conservation; no table counted twice |
| `MessagePump`, `PumpAccounts`, `PumpLosses`, `ScreenSync` | the hand-over from goroutines to the screen, where its messages end up, and a queue of runs seen through it | pump safety; every message shown, left or given up; exactly when some can be |
| `Bundles`, `InstallCache`, `InstallRace`, `LoneInstall`, `StaleInstall` | bundle hash, one `Ensure` call step by step, many competing and crashing calls, and how the first fits into the second | crash atomicity, exactly when a call succeeds and when the next one is free, stability of a valid install, what a stale success can miss and exactly when there can be one |

Goroutines, channels, processes and crashes are steps of state machines: a run is any sequence of enabled steps, so a
statement about every run covers every interleaving and every moment of cancellation or crash. Termination is a number
that every step of every actor lowers. Sequential code that changes things step by step is imperative here too: classes
with the Go types' fields, methods with loops, and contracts that give the new state. Servers, tools, the clock and the
outside world are parameters, such as which calls fail, or free choices.

Modelling choices:

- Names and SQL are sequences of code points; Go compares UTF-8 bytes, which orders them the same way, and
  `unicode.IsSpace` reads code points too. File contents are sequences of characters below 256. `float64` is `real`;
  integers are unbounded; sizes and counts, which come from `count(*)` and `pg_total_relation_size`, are never negative.
- A digest is a constructor around the hashed text, so it is injective. Two bundles share a cache directory exactly when
  their hashed streams are equal.
- An install marker that decodes is a content of its own; plain bytes never equal it. Reading an existing file succeeds.
- A copy in the pool has a number of progress events fixed in advance but arbitrary: every stream is finite. `CopyFrom`
  reports success only after it has read the end of the stream; server calls return.
- Counters of the dashboard are grouped by tier into records (queue, database, table in flight).

## What the proofs found

Where the code and its stated intent differ, the model follows the code, and a lemma gives the input.

- `TopoSort` reports a cycle without one when two tables share a key: it succeeds exactly when keys are distinct and the
  kept graph has no cycle (`Topology.TopoSort`). `QualifiedName` does not double quotes: a key has a second reading exactly
  when quote, dot, quote occurs in it once more (`Models.KeyHasOneReading`, `Models.KeyNotInjective`).
- Edges are deduplicated by a NUL-joined key. The sort sees the real foreign keys exactly when no two of them share that
  key (`Topology.KeptIsReal`). PostgreSQL names hold no NUL, so for them it always does; `Topology.EdgeKeyNotInjective` shows
  that the join relies on it.
- A bare table name that fits several schemas selects the last one in the catalog (`Closure.LookupIsLast`).
- `CopyTables` without an error has copied exactly the tables that were handed to a worker, and stops handing them out only
  under a context its caller cancelled (`CopyPool.CopyTables`, `CopyPool.WhenCollected`). Whatever the tables and however many
  the workers, it can end without an error and with nothing copied (`CopyPool.NilWithNothingCopied`). The context check before
  the next stage is what makes a successful run complete (`Execution.ExecutionRun.Execute`).
- A table whose name cannot be quoted leaves its source connection open; in every other case both connections of a copy are
  closed exactly once (`CopyPool.CopyTables`). A plan that came out of `Plan` holds no such name, so no run of one leaves a
  connection open (`PlannedRun.PlanAndRun`).
- The plan of an empty request is FK-complete exactly when the catalog listed every parent, because tables and foreign keys
  are read by separate queries; a requested closure always is (`Planner.PlanIsFKComplete`).
- A dashboard started from one plan never counts that plan's own database (`Dashboard.SinglePlanIsNotCounted`).
- Any sync with a progress message may lose one that the channel took, because the wait may take the finish first
  (`PumpLosses.MessageMayBeLost`); all accepted ones are shown exactly when the channel was empty at that moment
  (`MessagePump.EverythingShown`). A plan message can be dropped exactly when there are more than 256 databases
  (`MessagePump.PlansDroppedIff`).
- A failed run can count a table that the screen never shows: the failure of one table cancels the context under which the
  done event of another goes out, and the observer may give it up (`CopyPool.DoneUnderCancelledContext`,
  `ScreenSync.CountedButNeverShown`). With the channel emptied this happens exactly when some done event was sent under a
  cancelled context (`PumpLosses.ShortWhenDoneIsCancelled`). Shown, left and given up are together always the result, so the
  screen's tables are the result's exactly when no done event was left or given up (`ScreenSync.SyncOnScreen`).
- The bundle hash does not identify the bundle: two installable bundles with different files share one, and so a cache
  directory (`Bundles.HashCollision`). Two bundles with one hash are the same exactly when platform, version and every file agree
  in length (`Bundles.HashIdentifiesBundle`). Validation still never accepts foreign bytes, because it compares file by file
  (`InstallCache.ValidHoldsTheBundle`).
- Calling `Ensure` again is free exactly when the signer kept the bytes it signed and no bundle file is named like the marker;
  otherwise every call throws the install away and builds it again (`InstallCache.Extractor.EnsureTwice`). Some pair of calls
  does so exactly when the cache was not valid before, the bundle has only safe names, and one of them is the marker's or
  the signer may change a file it signs (`LoneInstall.RebuildsIff`).
- With a competitor, a success that came from validation may already be stale at its deciding step. Some run has one exactly
  when there are two processes at least, the cache was not valid, and the bundle has only safe names and none of them is the
  marker's (`StaleInstall.StaleIff`). With a signer that keeps the bytes such a success is sound exactly when no entry is
  missing at that step, so staleness never means wrong bytes (`InstallRace.PassIsValid`, `InstallRace.StaleMeansMissing`), and a
  success that came from renaming is always sound (`InstallRace.RenamedIsValid`).
- `aggregateResult` would show the zero time as its start if its first result were missing (`QueueReport.AggregateResult`);
  `startSyncCmd` appends only results that are there, so the screen does not get into that case.

## Model

| member | source | states |
|---|---|---|
| `Models.KeyInjective` | internal/models/table.go:14-16 | equal keys mean equal schema and name, for names without double quotes |
| `Models.KeyHasOneReading` | internal/models/table.go:14-16 | another schema and name have the same key iff quote, dot, quote occurs in it somewhere else than between schema and name |
| `Models.KeyNotInjective` | internal/models/table.go:14-16 | two different tables with one key, through embedded quotes |
| `Strings.LessIsLexicographic` | internal/pgschema/deps.go:93-127 | a text is smaller than another iff at the first place where they differ it has the smaller character, or it is a proper beginning |
| `Strings.FirstDifferenceDecides` | internal/pgschema/deps.go:93-127 | the same on both sides of a common beginning: the first difference decides, whatever follows, and a proper beginning is smaller |
| `Strings.JoinedOrder` | internal/engine/native/sequences.go:84-86 | texts joined by NUL to others are ordered by the part before the NUL first, then by the rest |
| `Models.OwnedTableIs` | internal/engine/native/native.go:245-265 | a sequence belongs to a table iff its table schema and table name are those of the table, for names without double quotes |
| `KeyGraph.KahnOrderIsLeast` | internal/pgschema/deps.go:93-127 | among all topological orders, always taking the least ready key gives the lexicographically least |
| `KeyGraph.KahnIsTopological` | internal/pgschema/deps.go:93-127 | when every node is emitted the order has each node once and parents before children |
| `KeyGraph.StuckIsBelowCycle` | internal/pgschema/deps.go:129-138 | the nodes never emitted are exactly those on a cycle or reachable from one, parent to child |
| `KeyGraph.CompleteIffAcyclic` | internal/pgschema/deps.go:25-34 | every node is emitted if and only if the graph has no cycle |
| `KeyGraph.KahnCommutesWithRestriction` | internal/engine/native/native.go:115-122 | ordering a parent-closed part is ordering the whole and filtering |
| `Topology.KeptIsReal` | internal/pgschema/deps.go:64-91 | the sorted graph is the foreign-key graph if and only if joined edge keys are unambiguous |
| `Topology.NulFreeIsUnambiguous` | internal/pgschema/deps.go:89-91 | names without NUL make joined edge keys unambiguous |
| `Topology.EdgeKeyNotInjective` | internal/pgschema/deps.go:89-91 | two different edges with one joined key |
| `Topology.TopoGraph.AddDep` | internal/pgschema/deps.go:64-87 | one dependency keeps in-degree = number of distinct waiting parents, and the child lists, for the graph with that edge if it was new |
| `Topology.TopoGraph.ReleaseChildren` | internal/pgschema/deps.go:116-127 | each child loses one in-degree; those at zero join the ready list, which stays sorted |
| `Topology.TopoGraph.Sorted` | internal/pgschema/deps.go:93-103 | the loop ends and emits exactly the least topological order's emitted part |
| `Topology.TopoGraph.StuckKeys` | internal/pgschema/deps.go:129-138 | the keys with positive in-degree, sorted |
| `Topology.TopoSort` | internal/pgschema/deps.go:25-34 | succeeds iff keys are distinct and the graph is acyclic; then a permutation of the input in the least topological order, least as `Strings.LessIsLexicographic` says; otherwise reports exactly the tables on or below a cycle |
| `Topology.SortIgnoresInputOrder` | internal/pgschema/deps.go:25-138 | inputs with the same key set and the same foreign keys get the same order |
| `Closure.LookupIsLast` | internal/pgschema/filter.go:33-40 | a requested name finds the last catalog table it fits, by bare name or schema.name, and nothing iff none fits |
| `Closure.NamesReads` | internal/pgschema/filter.go:33-40 | read as the catalog writes names, without dots: schema.name names that schema and that name, and a bare name the name alone |
| `Closure.IndexTables` | internal/pgschema/filter.go:33-40 | the name index answers every lookup so |
| `Closure.SeedTables` | internal/pgschema/filter.go:42-52 | the requested tables, or the first name that fits none |
| `Closure.ParentIndex` | internal/pgschema/filter.go:54-60 | lists each child's parents, all of them and no others |
| `Closure.Worklist.AppendMissingParents` | internal/pgschema/filter.go:74-83 | selects every listed parent; those that were missing join the queue |
| `Closure.Worklist.ExpandParents` | internal/pgschema/filter.go:62-72 | the queue loop ends, on cyclic graphs too, with the least set that holds the seeds and is closed under parents |
| `Closure.ClosureUnique` | internal/pgschema/filter.go:62-83 | there is only one such least set |
| `Closure.SortedTableValues` | internal/pgschema/filter.go:85-94 | the selected tables once each, sorted by key |
| `Closure.FKClosure` | internal/pgschema/filter.go:14-25 | an empty request selects the whole catalog unchanged; another one selects the closure of the requested tables, sorted and without repetition; it fails iff a requested name fits no table |
| `Planner.SortCommutesWithClosure` | internal/engine/native/native.go:115-122 | by key, sorting a closure is filtering the sorted catalog, and an acyclic catalog has acyclic closures |
| `Planner.PlanOrderIsFilteredCatalogOrder` | internal/engine/native/native.go:115-122 | the copy order of the requested tables does not depend on what else is selected |
| `Planner.SortCatalogAndClosure` | internal/engine/native/native.go:115-122 | of two calls of TopoSort, when the catalog's succeeds the closure's does too, with the catalog's order filtered to the closure |
| `Planner.PlansAgreeOnOrder` | internal/engine/native/native.go:90-140 | a plan for a request copies its tables in the order of the plan for everything |
| `Planner.CountExactRows` | internal/engine/native/native.go:211-227 | succeeds iff every name can be quoted and every query is answered; then every slot keeps its schema, name and size and has its own answer as its rows; on failure exactly the slots before the failing one were overwritten |
| `Planner.SequencesForTables` | internal/engine/native/native.go:245-265 | exactly the catalog sequences owned by planned tables, in catalog order |
| `Planner.OwnedInOrder` | internal/engine/native/native.go:245-265 | the selection of a catalog in two parts is the selections of the parts, one after the other, and a single sequence is decided by its table alone |
| `Planner.OrderedIsFKComplete` | internal/pgschema/deps.go:75-87 | a topological order of a parent-closed selection copies each parent strictly before its child, self-references aside |
| `Planner.BuildPlan` | internal/engine/native/native.go:115-131 | from a listed catalog: succeeds iff every name is found, keys are distinct, no cycle runs through the selection, every name can be quoted and every count is answered; the planned tables carry the counted rows in plan order; an unknown name or a cycle is reported iff there is one, the cycle with exactly the tables on or below it; a failed count names its table |
| `Planner.PlanDatabase` | internal/engine/native/native.go:90-140 | the whole call: refused connection, failed catalog query, failed planning and failed close are told apart, each reported iff it comes first, and a failed close never goes with success; the connection is closed once on every way out; the planned tables carry the counted rows |
| `Planner.PlanIsFKComplete` | internal/engine/native/native.go:110-131 | a plan holds the parents of its tables, earlier, iff tables were requested by name or the catalog listed every parent; its sequences are exactly those owned by planned tables |
| `Quoting.UnquoteQuoted` | internal/pgdb/ident.go:12-17 | a delimited-identifier lexer (section 5.2 of ISO/IEC 9075-2) reads the quoted text back and stops right after it |
| `Quoting.QuotedUnquote` | internal/pgdb/ident.go:12-17 | whatever the lexer reads is what quoting wrote: the two are inverse |
| `Quoting.QualifiedRoundTrip` | internal/pgdb/ident.go:20-30 | schema and name are recovered from the qualified name; it fails exactly for blank parts |
| `Quoting.QualifiedInjective` | internal/pgdb/ident.go:20-30 | equal qualified names come from the same schema and name |
| `Quoting.KeyIsQuotedName` | internal/models/table.go:14-16 | the planning key is the quoted name exactly when no quote is embedded |
| `Quoting.RepairRoundTrip` | internal/engine/native/sequences.go:37-64 | reading the setval statement, literal first and identifiers inside it second, gives back sequence, table and column; it is an error iff a part is blank |
| `Quoting.RepairStatement` | internal/engine/native/sequences.go:37-64 | the statement in full for names without quotes, all its fixed texts and names in place |
| `Quoting.RefusedNames` | internal/pgdb/ident.go:12-17 | an ASCII name is refused iff it is empty or only tabs, line ends and spaces |
| `SequenceRepair.SortKeyInjective` | internal/engine/native/sequences.go:84-86 | the joined sort key tells NUL-free sequences apart |
| `SequenceRepair.SortKeyOrder` | internal/engine/native/sequences.go:84-86 | NUL-free sequences are ordered by schema, name, table schema, table name and column, the first of these that differs deciding |
| `SequenceRepair.OrderIsDetermined` | internal/engine/native/sequences.go:20-23 | the repair order depends on the set of sequences alone, although the sort is not stable |
| `SequenceRepair.RepairSequences` | internal/engine/native/sequences.go:15-35 | runs the statements of a prefix of the sorted sequences, each once; succeeds iff that is all of them, else names the one it stopped at |
| `CopyPipe.InvNext` | internal/engine/native/copy.go:156-190 | every step keeps: bytes received are a prefix of the stream, EOF and errors are believed only when true, events are in flight order |
| `CopyPipe.WorkDecreases` | internal/engine/native/copy.go:61-91 | every step of source, target, pipe, caller and canceller lowers the work left |
| `CopyPipe.NeverStuck` | internal/engine/native/copy.go:61-91 | until the caller has its answer somebody can move, even if nothing fails by itself |
| `CopyPipe.CopyTable` | internal/engine/native/copy.go:32-99 | the call ends under any schedule; success means every byte of the stream in order and a complete event sequence; the source is closed once; an unquotable name fails before anything starts; the call is a run of the machine and succeeds iff the name can be quoted and no server call in the run fails; its rows are those CopyFrom returned, which it does once |
| `CopyPipe.RowsReturned` | internal/engine/native/copy.go:181-190 | in every run whose caller has its answer CopyFrom returned exactly once, and the rows are what it returned then |
| `CopyPipe.WhenCopyFails` | internal/engine/native/copy.go:61-99 | a run fails iff a server call in it does: pipe errors and cancellation act only through such calls |
| `CopyRefinement.PipeRefinesWorker` | internal/engine/native/copy.go:268-291 | every outcome of the pipe is produced by the pool's steps for that job, with the same counts and events |
| `CopyRefinement.CopyAsWorker` | internal/engine/native/copy.go:32-99 | every call of CopyTable ends in such an outcome, with a list of worker steps that shows the same events and leaves its worker with the same counts |
| `CopyPool.InvNext` | internal/engine/native/copy.go:203-266 | every step keeps: each job in one place, results in channel order, failures lead to cancellation, ledgers and sums agree with the events |
| `CopyPool.SendNeverBlocks` | internal/engine/native/copy.go:210-211 | the result channel always has room for a finished job |
| `CopyPool.NeverStuck` | internal/engine/native/copy.go:203-266 | until enqueuer, workers, closer and collector have stopped, one of them can move without help from outside |
| `CopyPool.EveryRun` | internal/engine/native/copy.go:203-266 | every reachable state keeps the invariant and no run is longer than the initial work |
| `CopyPool.BoundedCopies` | internal/engine/native/copy.go:203-233 | at no moment of any run are more tables being copied than there are workers |
| `CopyPool.AllAtOnce` | internal/engine/native/copy.go:203-233 | and as many can be: some run has the first k tables with k workers at once |
| `CopyPool.WhenCollected` | internal/engine/native/copy.go:225-244 | when the collector is done exactly the tables handed out are collected, so all of them iff the enqueuer got to the end; without an error it stops earlier only for outer cancellation |
| `CopyPool.NilWithNothingCopied` | internal/engine/native/copy.go:235-244 | for every list of tables and any number of workers some run, cancelled from outside, ends with no error and nothing copied |
| `CopyPool.WhenPoolFails` | internal/engine/native/copy.go:203-291 | a run ends with an error iff a server call in it failed or, under a live context, a name cannot be quoted |
| `CopyPool.DoneUnderCancelledContext` | internal/engine/native/copy.go:90-99 | a two-table run whose first done event is shown under the context that the second table's failure cancelled, and whose result counts it |
| `CopyPool.AggregateCopyResults` | internal/engine/native/copy.go:293-311 | tables, rows and bytes of the aggregate are each the sum of those of the results |
| `Tallies.SumByField` | internal/engine/native/copy.go:305-309 | a sum of totals has the sum of their tables, the sum of their rows and the sum of their bytes |
| `CopyPool.RunTotals` | internal/engine/native/copy.go:225-311 | failed or not, the total of a run is the tables, rows and bytes of the results it collected, each added up on its own |
| `CopyPool.DoneFields` | internal/engine/native/copy.go:90-99 | what done events add up to, number by number |
| `CopyPool.CopyTables` | internal/engine/native/copy.go:115-154 | tables are counted exactly when their done event was shown, and with no error the total has the rows and bytes of the done events added up, each on its own; with no error exactly the tables handed out were copied, once each, start progress+ done, both connections closed once, the others left untouched, and some are left out only under outer cancellation; the call is a run of the pool with the given number of workers, at least one, and fails iff that run had a failed server call or, under a live context, an unquotable name, with that run's totals, connections and number of tables handed out |
| `Progress.Percent` | internal/engine/native/progress.go:137-149 | always within 0..100; the exact share when done is within the estimate |
| `Progress.FirstPositive` | internal/engine/native/progress.go:127-135 | the first positive estimate, 0 iff there is none |
| `Progress.SizeElseRows` | internal/engine/native/progress.go:127-135 | a table copy measures itself against the size of the table, or its rows when there is no size |
| `Progress.ProgressReader.EmitIfDue` | internal/engine/native/progress.go:91-96 | reports iff the interval has passed since the last report, with the bytes so far and their share, so nothing shown is older than the interval |
| `Progress.ProgressReader.EmitFinal` | internal/engine/native/progress.go:98-104 | the final report is made once |
| `Progress.ProgressReader.Read` | internal/engine/native/progress.go:74-85 | counts the bytes and adds exactly the due and the final report; times and bytes of the log never fall |
| `Progress.ProgressReader.EventBudget` | internal/engine/native/progress.go:46-125 | at most 2 + elapsed/interval reports, however many reads |
| `Progress.Drain` | internal/engine/native/progress.go:74-125 | reading to the end, which comes with the last chunk or after it: the last report is made at the end and carries the chunks' bytes added up and their share, within the budget |
| `Events.EarlierStagesDone` | internal/engine/native/native.go:321-373 | no stage starts before every earlier stage is done |
| `Events.ResetIsGuarded` | internal/engine/native/native.go:321-360 | the target is never reset before snapshot, pre-data dump and extension check are done |
| `Connector.PgxConn.Close` | internal/pgdb/connector.go:157-170 | the native close happens at most once; closing again succeeds |
| `Execution.ExecutionRun.BeginStage` | internal/engine/native/native.go:480-484 | a cancelled context stops the run before the stage is announced |
| `Execution.ExecutionRun.EndStage` | internal/engine/native/native.go:484-533 | failed or done, and Stages grows exactly with done stages |
| `Execution.ExecutionRun.OpenSnapshot` | internal/engine/native/native.go:375-394 | on every failure the connection is closed natively once, although Close may be called twice |
| `Execution.ExecutionRun.CopyStage` | internal/engine/native/native.go:444-478 | totals are added whether or not the pool failed; with no error all tables are copied, both connections of each closed once, unless the context is cancelled; once announced, the stage has a ledger for every table, while the connection of the exported snapshot stays open |
| `Execution.ExecutionRun.WithSnapshot` | internal/engine/native/native.go:321-373 | the target connection is opened at most once, once on success, and closed once on every way out |
| `Execution.ExecutionRun.Execute` | internal/engine/native/native.go:308-373 | for every pattern of failure and cancellation: the trace grammar, Stages = done stages, table events inside the copy stage and each table's in order; the calls before the clean-up are made in their order, each after the one before it succeeded and inside its own stage, a stage being done iff its call succeeded and failed iff it failed (`CallsFit`, stage by stage); a successful run copied every planned table once with totals equal to the done events; the last event carries name, database, rows and bytes of the totals; from the copy stage on every table has a ledger, both connections closed once on success; the run's own connections, two on success, are closed once; it succeeds only if no call failed and every name can be quoted, and does so then when the context stays live |
| `Execution.ResetIsEarned` | internal/engine/native/native.go:321-345 | the target is recreated only after the snapshot was exported, the schema dumped and the extensions checked: those calls were made before, in this order, they succeeded, and their stages are done |
| `Execution.SuccessfulRunShows` | internal/engine/native/native.go:308-373 | a successful run shows sync start, the start and done of the ten stages by name, and sync done, and makes all its calls in order |
| `Execution.ShownTableEvent` | internal/engine/native/progress.go:106-166 | each table event shown is that of the pool: schema.name or the part there is, rows, bytes and what it is measured against |
| `PlannedRun.PlannedAreQuotable` | internal/engine/native/native.go:211-227 | counting has put every planned name through quoting |
| `PlannedRun.PlannedRunCloses` | internal/engine/native/copy.go:268-291 | a run over quotable names leaves no connection of the pool open, whatever fails, and only a failed call or a cancelled context can make it fail |
| `PlannedRun.PlanAndRun` | internal/cli/sync.go:54-65 | plan and, unless it is a dry run, execute: planning ends as on its own, a plan is run once, and neither leaves a connection open |
| `Dashboard.EaseToward` | internal/tui/progress.go:349-356 | never overshoots, never moves back below a higher target, and goes straight down to a lower one |
| `Dashboard.IdleTicks` | internal/tui/progress.go:349-356 | n idle ticks leave exactly (3/4)^n of the gap |
| `Dashboard.SeenAre` | internal/tui/progress.go:171-187 | which databases an event history has switched to, both directions |
| `Dashboard.QueueSeesAll` | internal/tui/progress.go:98-105 | started from a queue, the index is the number of different databases in the events |
| `Dashboard.SinglePlanIsNotCounted` | internal/tui/progress.go:75-94 | started from one plan, that plan's database is never counted |
| `Dashboard.ResultsAddUp` | internal/tui/progress.go:335-345 | committed tables, rows and bytes are the number of result rows and their sums |
| `Dashboard.PlanTables` | internal/tui/progress.go:80-87 | every planned table is found under its event name, and nothing else is |
| `Dashboard.LastTableCounts` | internal/tui/progress.go:80-87 | of planned tables with one event name the last one is found |
| `Dashboard.PlanSums` | internal/tui/progress.go:75-94 | the rows and the bytes of a plan are the sums of its tables' rows and sizes, each on its own |
| `Dashboard.LiveProgress.ForPlan` | internal/tui/progress.go:75-94 | rows and bytes estimated are the sums of the rows and of the sizes of the plan's tables, for both tiers |
| `Dashboard.LiveProgress.ForQueue` | internal/tui/progress.go:98-105 | sizes and table counts are the sums over the queue |
| `Dashboard.LiveProgress.RegisterDB` | internal/tui/progress.go:111-122 | adds the plan and its row estimate and nothing else |
| `Dashboard.LiveProgress.SwitchDB` | internal/tui/progress.go:171-194 | the index is the number of databases seen, the total is lifted to it when it was set, and the database tier starts from tables, rows and bytes of the registered plan, or from nothing |
| `Dashboard.LiveProgress.Count` | internal/tui/progress.go:196-232 | both tiers grow by exactly the event's tally and an estimate is lifted only when passed; the table in flight follows the event |
| `Dashboard.LiveProgress.PrependEvent` | internal/tui/progress.go:327-333 | the log stays the newest 128 events, newest first |
| `Dashboard.LiveProgress.Apply` | internal/tui/progress.go:150-237 | every derived number follows the history longer by this event, which moves them number by number: a done event adds one table, its rows and its bytes to both tiers and a result row, the table in flight is the event's, another database comes with its plan, nothing is registered; bars stay within 0..percent |
| `Dashboard.LiveProgress.Tick` | internal/tui/progress.go:240-247 | moves the bars by one ease and nothing else |
| `Watching.RowsGained` | internal/tui/progress.go:335-345 | the result rows a trace adds are its done events, in order |
| `Watching.RunNamesItsDatabase` | internal/tui/app.go:576-586 | every event a run sends to the screen names the database of its plan |
| `Watching.EachDoneOnce` | internal/engine/native/copy.go:203-233 | when every table was copied the done events name each table exactly once |
| `Watching.NothingLeftInFlight` | internal/tui/progress.go:196-228 | after a trace whose last table event is done no table is shown as being copied |
| `Watching.SyncAndWatch` | internal/tui/progress.go:150-237 | a dashboard to which every event of a run was applied gained exactly the result's tables; on success also its rows and bytes, one result row for each planned table, and nothing in flight; there was a run of that plan, with its promise of success |
| `BytesShown.EachTableOnce` | internal/tui/progress.go:249-256 | committed bytes and those in flight are together at most what was last reported of each table |
| `BytesShown.NothingCountedTwice` | internal/tui/progress.go:17-20 | the same at every moment of a run, read off the dashboard's history |
| `BytesShown.CountersCountOnce` | internal/tui/progress.go:249-256 | the queue's byte counter has gained at most what was last reported of each table, each once, and the database's lies within it |
| `ScreenSync.SyncOnScreen` | internal/tui/app.go:524-611 | a queue of databases sent to the screen under any scheduler, whatever fails: results and events are those of runs of the plans, and the dashboard has the events that a run of the hand-over delivered; what that run left in the channel and gave up accounts for the rest of the results' tables, so the screen shows them iff no done event was left or given up; only table events are given up; with every run successful none is, the events shown and left are the whole trace in order, and rows and bytes add up too; every plan handed over is registered, with at most 256 databases all of them before the first event is handled, and a database that comes up then shows tables, rows and bytes of its plan |
| `ScreenSync.PlansKnown` | internal/tui/app.go:529-564 | with at most 256 databases, when an event is handled every planned database is registered with its tables and their rows and sizes added up |
| `ScreenSync.PlanOnScreen` | internal/tui/app.go:96-101 | a screen that moved on to another database shows that database's plan totals |
| `ScreenSync.CountedButNeverShown` | internal/tui/app.go:576-592 | the two-table run and a screen that empties the channel and still shows fewer tables than the result |
| `QueueReport.SyncQueue` | internal/tui/progress.go:150-237 | over a queue of databases, which a failed one ends, every event applied: the results are those of runs of the plans; the dashboard gained exactly the tables of the combined report; on success every number |
| `QueueReport.AggregateResult` | internal/tui/app.go:494-521 | tables, rows, bytes and each stage's time are the sums over the results, each on its own; first failure, latest finish; earliest start iff the first result is present |
| `MessagePump.InvNext` | internal/tui/app.go:524-611 | every step keeps: one token among waits, inbox and finish; no message lost, doubled or reordered behind the channel; only full-channel plan messages and cancelled sends are given up |
| `MessagePump.WorkDecreases` | internal/tui/app.go:524-611 | every step lowers the work left |
| `MessagePump.NeverStuck` | internal/tui/app.go:524-611 | until the finish is handled and the channel closed somebody can move: a full channel always has a reader |
| `MessagePump.PumpIsSafe` | internal/tui/app.go:80-118 | at any moment at most one wait is outstanding, and what Update handled is an in-order prefix of what was sent |
| `MessagePump.FinishIsLast` | internal/tui/app.go:599-611 | the finish message is handled once and nothing after it |
| `MessagePump.FinishFreezesChannel` | internal/tui/app.go:599-611 | what is in the channel when the finish is taken is never handled |
| `MessagePump.EverythingShown` | internal/tui/app.go:524-611 | every live progress message was sent; all were shown iff the channel was empty when the finish was taken |
| `MessagePump.PlansAreKept` | internal/tui/app.go:529-564 | with at most 256 databases no plan message is dropped |
| `MessagePump.PlansComeFirst` | internal/tui/app.go:529-593 | with at most 256 databases the screen is handed every plan, in order, before any progress, and none after |
| `MessagePump.PlansDroppedIff` | internal/tui/app.go:529-564 | some run drops a plan message iff there are more databases than the 256 places of the channel |
| `MessagePump.RunSync` | internal/tui/app.go:80-118 | under any scheduler the sync ends and the dashboard's history is the events handled; every plan handled is registered, the last one of each database, and nothing else; the queue's row estimate grew at least by their rows; the database shown is the last one an event named, with the plan registered for it then |
| `MessagePump.NeverOvercounts` | internal/tui/app.go:80-118 | a dashboard that missed messages shows at most what was sent |
| `PumpAccounts.NothingUnaccounted` | internal/tui/app.go:524-611 | whatever the lanes, cancellations and scheduler: what is shown, left in the channel and given up adds up to what was sent |
| `PumpAccounts.ShownInOrder` | internal/tui/app.go:524-611 | without parallel lanes and with a live context the events shown and left are the events sent, in order |
| `PumpLosses.MessageMayBeLost` | internal/tui/app.go:599-611 | some run loses a live progress message that the channel took iff the script has one |
| `PumpLosses.ShortWhenDoneIsCancelled` | internal/tui/app.go:576-592 | some run empties the channel and still shows fewer tables than were reported iff some done event was sent under a cancelled context |
| `Bundles.ComputeBundleHash` | internal/engine/pgtools/embed.go:109-134 | the hash of platform, version and the sorted files, and each file's own hash |
| `Bundles.TwoFileStream` | internal/engine/pgtools/embed.go:109-134 | what is hashed, spelled out: platform, version, and for each file in order its name and bytes, each ended by NUL |
| `Bundles.HashIdentifiesBundle` | internal/engine/pgtools/embed.go:109-134 | bundles with one hash are equal iff platform, version, file names and file sizes agree in length and name, whatever the bytes |
| `Bundles.NulFreeHashIdentifiesBundle` | internal/engine/pgtools/embed.go:109-134 | without NUL bytes equal hashes alone mean equal bundles |
| `Bundles.HashCollision` | internal/engine/pgtools/embed.go:109-134 | two bundles, each with both executables, with different files and one hash |
| `Bundles.RelativePath` | internal/engine/pgtools/embed.go:150-176 | the least of the paths that are this name or end in a slash and this name; none iff there is no such path |
| `Bundles.BaseIsLastPart` | internal/engine/pgtools/embed.go:150-176 | a base name holds no slash, and a path has the base name b iff it is b or ends in a slash and b |
| `Bundles.ProgramNames` | internal/engine/pgtools/embed.go:136-148 | the programs are pg_dump and pg_restore, with .exe on every platform named windows- |
| `Bundles.FirstNamedIsLeast` | internal/engine/pgtools/embed.go:150-176 | the least path with that base name |
| `InstallCache.WholeIsValid` | internal/engine/pgtools/extract.go:261-293 | a finished install validates iff the signer kept the bytes and no file is named like the marker |
| `InstallCache.ValidHoldsTheBundle` | internal/engine/pgtools/extract.go:261-293 | validation accepts only the bundle's own bytes |
| `InstallCache.Extractor.Validate` | internal/engine/pgtools/extract.go:261-293 | decides validity, whatever order the files are read in |
| `InstallCache.Extractor.RemoveFinal` | internal/engine/pgtools/extract.go:93-95 | removes entry by entry, failing iff one of the removals does; a partial failure leaves some of the old entries, unchanged |
| `InstallCache.Extractor.WriteFiles` | internal/engine/pgtools/extract.go:127-161 | succeeds iff every name is safe and every step for every file succeeds; then the directory is the payload, up to what the signer changed |
| `InstallCache.Extractor.Ensure` | internal/engine/pgtools/extract.go:53-124 | succeeds iff the context is live, the bundle is staged with both executables, and either the cache is valid or every name is safe and every call that replacing it takes succeeds; executables are missing iff no path of the bundle is or ends in a slash and pg_dump or pg_restore, with .exe on Windows, and the paths returned are such paths; a valid install is left alone; success leaves the marker of this bundle and its files; at every point in between a crash leaves part of what was there or a finished install |
| `InstallCache.Extractor.GoodIff` | internal/engine/pgtools/extract.go:261-293 | a cache is left as it is iff its marker says schema 1 and platform, version and hash of this bundle and every file has the bundle's bytes; file list and time of the marker and other entries play no part |
| `InstallCache.Extractor.InstallNeeds` | internal/engine/pgtools/extract.go:93-161 | the calls that replacing a cache takes, and the names it refuses, one by one |
| `InstallCache.Extractor.EnsureTwice` | internal/engine/pgtools/extract.go:90-124 | the second call touches the file system iff the signer changed bytes of the cache between the calls or a file is named like the marker; it can do so only if the cache was not valid before and the signer may change a file or a file has the marker's name |
| `InstallRace.InvNext` | internal/engine/pgtools/extract.go:90-124 | every step of every process keeps: temporary directories are as far as their process is, the cache is part of what was found or of a whole install |
| `InstallRace.CrashAtomic` | internal/engine/pgtools/extract.go:90-124 | over all runs of any number of processes with crashes, the cache is what was found or a whole install, minus removed entries |
| `InstallRace.RenamedIsValid` | internal/engine/pgtools/extract.go:115-123 | success by renaming leaves the cache valid at that step |
| `InstallRace.RightNext` | internal/engine/pgtools/extract.go:90-124 | every step of every process keeps: whatever a validation under way has passed is still right if it is still there |
| `InstallRace.PassIsValid` | internal/engine/pgtools/extract.go:90-92 | at the deciding step of a success by validation the cache is valid iff neither the marker nor a bundle file is missing |
| `InstallRace.StaleMeansMissing` | internal/engine/pgtools/extract.go:90-124 | the same in every run of any processes over any cache |
| `InstallRace.CalmPassIsValid` | internal/engine/pgtools/extract.go:90-92 | nothing is missing, and the success is sound, when the cache has not changed since the validation began |
| `InstallRace.RenameSettles` | internal/engine/pgtools/extract.go:115-123 | a rename settles the cache unless somebody is removing |
| `InstallRace.SettledForever` | internal/engine/pgtools/extract.go:53-124 | from a valid cache with no removal under way, no process ever changes it and every call that starts succeeds without writing |
| `StaleInstall.StaleIff` | internal/engine/pgtools/extract.go:90-124 | some run of these processes over this cache has a success that is stale at its deciding step iff there are at least two processes, the cache was not valid, all names are safe and none is the marker's |
| `LoneInstall.AllowedIsRun` | internal/engine/pgtools/extract.go:53-124 | every outcome Ensure's contract allows is the outcome of a run of the machine with one process |
| `LoneInstall.EnsureAsRun` | internal/engine/pgtools/extract.go:53-124 | every call of Ensure is such a run, and so is every point where a crash can leave the cache |
| `LoneInstall.RebuildsIff` | internal/engine/pgtools/extract.go:90-124 | some successful call leaves a cache that the next one rebuilds iff the cache was not valid before, all names are safe, and a file has the marker's name or the signer may change a file it signs |

## Left out

- Real PostgreSQL, pgx, pg_dump and pg_restore, sockets and tunnels: connections and tools are nondeterministic actors.
- Timestamps, durations, transfer rates, stage labels and detail texts of events and log rows: the order, counts and percentages carry the properties.
- 64-bit wrap-around of byte and row sums: sums are unbounded here.
- Redaction, error texts and error joining: only which kind of failure occurred is kept.
- Terminal screens, styles, keys and mouse, configuration, flags, the updater and release scripts: easy or pure plumbing.
- `ScreenSync` sends each run's events from one lane, in the order of the trace; `PumpAccounts` and `PumpLosses` cover parallel lanes. When a context is cancelled between two events of a failed copy stage is free: any of its table events may be given up.
- Starting a second sync from the screen while one is running: the screen does not offer it.
- Planning and validation of option records in `Plan` and `Execute`, before the first catalog query or event: field checks only.
- The reset of the target, schema dump, schema load and extension check: each is one call that may fail.
- File modes, empty sub-directories, path cleaning beyond the unsafe-name check, and transient read errors of the cache.
