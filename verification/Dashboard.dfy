/** The live dashboard counters (tui/progress.go): a fold over the events received so far,
    proved against what the event history says. */
module Dashboard {
  import opened Models
  import opened Tallies
  import opened Events
  import opened Execution
  import Progress

  // ---------- percentages and animation ----------

  function EaseToward(current: real, target: real): (next: real)
    ensures next <= target
    ensures current <= target ==> current <= next
    ensures target <= current ==> next == target
    ensures 0.0 <= current && 0.0 <= target ==> 0.0 <= next
  {
    if target <= current then target else current + (target - current) * 0.25
  }

  /** `n` ticks with nothing else happening. */
  function EaseTimes(current: real, target: real, n: nat): real {
    if n == 0 then current else EaseToward(EaseTimes(current, target, n - 1), target)
  }

  function ThreeQuartersTo(n: nat): real {
    if n == 0 then 1.0 else ThreeQuartersTo(n - 1) * 0.75
  }

  /** Each idle tick leaves exactly three quarters of the gap; the bar never overshoots or moves back. */
  lemma {:induction false} IdleTicks(current: real, target: real, n: nat)
    requires current <= target
    ensures target - EaseTimes(current, target, n) == (target - current) * ThreeQuartersTo(n)
    ensures current <= EaseTimes(current, target, n) <= target
  {
    if n > 0 {
      IdleTicks(current, target, n - 1);
      var before := EaseTimes(current, target, n - 1);
      assert target - EaseToward(before, target) == (target - before) * 0.75;
    }
  }

  // ---------- what a history says ----------

  /** The database being shown after `history`. */
  function CurrentDB(initial: string, history: seq<Event>): string {
    if history == [] then initial
    else
      var last := history[|history| - 1];
      if last.database != "" then last.database else CurrentDB(initial, history[..|history| - 1])
  }

  predicate Switches(initial: string, history: seq<Event>, e: Event) {
    e.database != "" && e.database != CurrentDB(initial, history)
  }

  /** The databases a history switched to. */
  function SeenDBs(initial: string, history: seq<Event>): set<string> {
    if history == [] then {}
    else
      var before := history[..|history| - 1];
      var last := history[|history| - 1];
      SeenDBs(initial, before) + if Switches(initial, before, last) then {last.database} else {}
  }

  /** The events since the last switch of database. */
  function SinceSwitch(initial: string, history: seq<Event>): seq<Event> {
    if history == [] then []
    else
      var before := history[..|history| - 1];
      var last := history[|history| - 1];
      if Switches(initial, before, last) then [last] else SinceSwitch(initial, before) + [last]
  }

  /** The table shown as being copied. */
  datatype Flight = Flight(table: string, bytes: nat, percent: real)

  const NOTHING := Flight("", 0, 0.0)

  function AfterEvent(was: Flight, e: Event): Flight {
    match e.name
    case TableCopyStart => Flight(e.table, 0, 0.0)
    case TableCopyProgress => Flight(e.table, e.bytes, e.percent)
    case TableCopyDone => NOTHING
    case _ => was
  }

  /** What the last start or progress event showed, unless a done event or a switch came after it. */
  function FlightOf(initial: string, history: seq<Event>): Flight {
    if history == [] then NOTHING
    else
      var before := history[..|history| - 1];
      var last := history[|history| - 1];
      AfterEvent(if Switches(initial, before, last) then NOTHING else FlightOf(initial, before), last)
  }

  datatype TableRow = TableRow(database: string, table: string, rows: nat, bytes: nat)

  /** One result row per done event, in order. */
  function TableRows(initial: string, history: seq<Event>): seq<TableRow> {
    if history == [] then []
    else
      var before := TableRows(initial, history[..|history| - 1]);
      var last := history[|history| - 1];
      if last.name.TableCopyDone? then before + [TableRow(CurrentDB(initial, history), last.table, last.rows, last.bytes)] else before
  }

  function RowTallies(results: seq<TableRow>): seq<Tally> {
    seq(|results|, i requires 0 <= i < |results| => Tally(1, results[i].rows, results[i].bytes))
  }

  /** The committed counters are the number of result rows and the sums of their rows and bytes. */
  lemma {:induction false} ResultsAddUp(initial: string, history: seq<Event>)
    ensures Sum(RowTallies(TableRows(initial, history))) == DoneTally(history)
    ensures DoneTally(history).tables == |TableRows(initial, history)|
  {
    hide Sum, DoneTallyOf, DoneTally, CurrentDB;
    if history == [] {
      NoHistory(initial);
      assert RowTallies([]) == EventTallies([]);
      EmptySum();
    } else {
      var before, last := history[..|history| - 1], history[|history| - 1];
      ResultsAddUp(initial, before);
      assert before + [last] == history;
      DoneTallyAppend(before, last);
      AddedRow(initial, before, last);
    }
  }

  lemma EmptySum()
    ensures Sum([]) == ZERO && DoneTally([]) == ZERO
  {
    assert EventTallies([]) == [];
  }

  /** A done event adds one row with its own rows and bytes. */
  lemma AddedDone(initial: string, before: seq<Event>, last: Event)
    requires last.name.TableCopyDone?
    ensures var rows, more := TableRows(initial, before), TableRows(initial, before + [last]);
            RowTallies(more) == RowTallies(rows) + [Tally(1, last.rows, last.bytes)] && |more| == |rows| + 1
  {
    hide CurrentDB;
    assert (before + [last])[..|before|] == before;
  }

  lemma AddedOther(initial: string, before: seq<Event>, last: Event)
    requires !last.name.TableCopyDone?
    ensures TableRows(initial, before + [last]) == TableRows(initial, before)
  {
    hide CurrentDB;
    assert (before + [last])[..|before|] == before;
  }

  lemma AddedRow(initial: string, before: seq<Event>, last: Event)
    ensures var rows, more := TableRows(initial, before), TableRows(initial, before + [last]);
            Sum(RowTallies(more)) == Plus(Sum(RowTallies(rows)), DoneTallyOf(last)) && |more| == |rows| + DoneTallyOf(last).tables
  {
    hide Sum, Plus, TableRows, RowTallies;
    var tallies := RowTallies(TableRows(initial, before));
    if last.name.TableCopyDone? {
      AddedDone(initial, before, last);
      SumAppend(tallies, DoneTallyOf(last));
    } else {
      AddedOther(initial, before, last);
      PlusZero(Sum(tallies));
    }
  }

  function Failures(history: seq<Event>): nat {
    if history == [] then 0
    else Failures(history[..|history| - 1]) + if history[|history| - 1].name.SyncFailed? then 1 else 0
  }

  datatype EventRow = EventRow(name: EventName, table: string)

  const LOG_LIMIT := 128

  /** The newest events first, at most 128 of them. */
  ghost predicate NewestFirst(log: seq<EventRow>, history: seq<Event>) {
    && |log| == (if |history| < 128 then |history| else 128)
    && forall i :: 0 <= i < |log| ==> var e := history[|history| - 1 - i]; log[i] == EventRow(e.name, e.table)
  }

  /** Every database that was switched to occurs in the history, and every one that occurs was
      switched to, except that the database shown from the start needs an excursion first. */
  lemma {:induction false} SeenAre(initial: string, history: seq<Event>, d: string)
    ensures d in SeenDBs(initial, history) <==>
              d != "" && exists j :: 0 <= j < |history| && history[j].database == d && (d == initial ==> Excursion(initial, history[..j]))
  {
    if history != [] {
      var n := |history| - 1;
      var before := history[..n];
      SeenAre(initial, before, d);
      forall j | 0 <= j <= n ensures before[..j] == history[..j] {}
      if Switches(initial, before, history[n]) && history[n].database == d {
        if d == initial { CurrentAfterExcursion(initial, before); }
        assert history[n].database == d && (d == initial ==> Excursion(initial, history[..n]));
      }
      if d != "" && history[n].database == d && !Switches(initial, before, history[n]) && (d == initial ==> Excursion(initial, before)) {
        CurrentWasSeen(initial, before);
      }
      if d != "" && exists j :: 0 <= j < |before| && before[j].database == d && (d == initial ==> Excursion(initial, before[..j])) {
        var j :| 0 <= j < |before| && before[j].database == d && (d == initial ==> Excursion(initial, before[..j]));
        assert history[j].database == d && history[..j] == before[..j];
      }
    }
  }

  /** Some other database was shown. */
  ghost predicate Excursion(initial: string, history: seq<Event>) {
    exists i :: 0 <= i < |history| && history[i].database != "" && history[i].database != initial
  }

  lemma {:induction false} CurrentAfterExcursion(initial: string, history: seq<Event>)
    requires CurrentDB(initial, history) != initial
    ensures Excursion(initial, history)
  {
    var n := |history| - 1;
    if history[n].database == "" {
      CurrentAfterExcursion(initial, history[..n]);
      var i :| 0 <= i < |history[..n]| && history[..n][i].database != "" && history[..n][i].database != initial;
      assert history[i].database != initial;
    }
  }

  lemma {:induction false} CurrentWasSeen(initial: string, history: seq<Event>)
    requires CurrentDB(initial, history) != initial || Excursion(initial, history)
    ensures CurrentDB(initial, history) in SeenDBs(initial, history)
  {
    var n := |history| - 1;
    var before := history[..n];
    if !Switches(initial, before, history[n]) {
      assert CurrentDB(initial, before) == CurrentDB(initial, history);
      if CurrentDB(initial, before) == initial {
        var i :| 0 <= i < |history| && history[i].database != "" && history[i].database != initial;
        assert i < n && before[i] == history[i];
      }
      CurrentWasSeen(initial, before);
    }
  }

  /** Counting from a queue, the index is the number of different databases seen in events. */
  lemma QueueSeesAll(history: seq<Event>)
    ensures SeenDBs("", history) == set e | e in history && e.database != "" :: e.database
  {
    forall d ensures d in SeenDBs("", history) <==> d in (set e | e in history && e.database != "" :: e.database) {
      SeenAre("", history, d);
      if d in (set e | e in history && e.database != "" :: e.database) {
        var e :| e in history && e.database == d;
        var j :| 0 <= j < |history| && history[j] == e;
        assert history[j].database == d;
      }
    }
  }

  /** Started from a single plan, the dashboard does not count that plan's own database: it shows
      database 0 for a whole run over it. */
  lemma SinglePlanIsNotCounted(database: string, history: seq<Event>)
    requires forall e :: e in history ==> e.database == database || e.database == ""
    ensures SeenDBs(database, history) == {}
  {
    forall d ensures d !in SeenDBs(database, history) {
      SeenAre(database, history, d);
    }
  }

  // ---------- the dashboard ----------

  /** A catalog entry of a multi-database run. */
  datatype Database = Database(name: string, sizeBytes: nat, tableCount: nat)

  datatype DBPlan = DBPlan(tables: seq<Table>, rows: nat, bytes: nat)

  /** One tier of counters: what was estimated and what is committed. */
  datatype Tier = Tier(tablesTotal: nat, rowsEstimated: nat, bytesEstimated: nat, done: Tally) {
    function Percent(): (percent: real)
      ensures 0.0 <= percent <= 100.0
      ensures 0 < rowsEstimated && done.rows <= rowsEstimated ==> percent == done.rows as real / rowsEstimated as real * 100.0
      ensures rowsEstimated == 0 ==> percent == 0.0
    {
      Progress.Percent(done.rows, rowsEstimated)
    }

    /** Commits a finished table and lifts an estimate that reality has passed. */
    function Commit(t: Tally): (next: Tier)
      ensures next.done == Plus(done, t) && next.done.rows <= next.rowsEstimated
      ensures next.tablesTotal == tablesTotal && next.bytesEstimated == bytesEstimated
      ensures done.rows <= rowsEstimated ==> rowsEstimated <= next.rowsEstimated <= rowsEstimated + t.rows
      ensures Plus(done, t).rows <= rowsEstimated ==> next.rowsEstimated == rowsEstimated
    {
      var sum := Plus(done, t);
      this.(done := sum, rowsEstimated := if sum.rows > rowsEstimated then sum.rows else rowsEstimated)
    }
  }

  /** The table in flight. */
  datatype Current = Current(table: string, rows: nat, rowsEstimate: nat, bytes: nat, bytesEstimate: nat, percent: real)

  const NO_TABLE := Current("", 0, 0, 0, 0, 0.0)

  /** The planned tables by the name their events carry; a later table of the same name wins. */
  function PlanTables(tables: seq<Table>): (byName: map<string, Table>)
    ensures forall name :: name in byName ==> byName[name] in tables && TableEventName(byName[name]) == name
    ensures forall t :: t in tables ==> TableEventName(t) in byName
  {
    if tables == [] then map[]
    else
      var last := tables[|tables| - 1];
      assert tables == tables[..|tables| - 1] + [last];
      PlanTables(tables[..|tables| - 1])[TableEventName(last) := last]
  }

  /** Counters for a database whose run begins: its plan's totals when it was registered. */
  function FreshTier(dbPlans: map<string, DBPlan>, database: string): Tier {
    if database in dbPlans then Tier(|dbPlans[database].tables|, dbPlans[database].rows, dbPlans[database].bytes, ZERO)
    else Tier(0, 0, 0, ZERO)
  }

  function SumRows(tables: seq<Table>): nat {
    if tables == [] then 0 else SumRows(tables[..|tables| - 1]) + tables[|tables| - 1].rows
  }

  function SumBytes(tables: seq<Table>): nat {
    if tables == [] then 0 else SumBytes(tables[..|tables| - 1]) + tables[|tables| - 1].sizeBytes
  }

  /** Of tables with one event name the last one counts. */
  lemma {:induction false} LastTableCounts(tables: seq<Table>, i: nat)
    requires i < |tables| && forall j :: i < j < |tables| ==> TableEventName(tables[j]) != TableEventName(tables[i])
    ensures TableEventName(tables[i]) in PlanTables(tables) && PlanTables(tables)[TableEventName(tables[i])] == tables[i]
  {
    hide TableEventName, PlanTables;
    var n := |tables| - 1;
    PlanStep(tables, n);
    assert tables[..n + 1] == tables;
    if i < n {
      LastTableCounts(tables[..n], i);
      assert tables[..n][i] == tables[i];
    }
  }

  lemma PlanStep(tables: seq<Table>, i: nat)
    requires i < |tables|
    ensures PlanTables(tables[..i + 1]) == PlanTables(tables[..i])[TableEventName(tables[i]) := tables[i]]
    ensures SumRows(tables[..i + 1]) == SumRows(tables[..i]) + tables[i].rows
    ensures SumBytes(tables[..i + 1]) == SumBytes(tables[..i]) + tables[i].sizeBytes
  {
    hide TableEventName;
    assert tables[..i + 1][..i] == tables[..i];
  }

  /** The totals of a plan are those of its tables, rows and sizes each on their own. */
  lemma {:induction false} PlanSums(tables: seq<Table>)
    ensures SumRows(tables) == SumOf(seq(|tables|, i requires 0 <= i < |tables| => tables[i].rows))
    ensures SumBytes(tables) == SumOf(seq(|tables|, i requires 0 <= i < |tables| => tables[i].sizeBytes))
  {
    if tables != [] {
      var n := |tables| - 1;
      PlanSums(tables[..n]);
      var rows, sizes := seq(|tables|, i requires 0 <= i < |tables| => tables[i].rows), seq(|tables|, i requires 0 <= i < |tables| => tables[i].sizeBytes);
      assert rows[..n] == seq(n, i requires 0 <= i < n => tables[..n][i].rows);
      assert sizes[..n] == seq(n, i requires 0 <= i < n => tables[..n][i].sizeBytes);
    }
  }

  lemma NothingPlanned()
    ensures PlanTables([]) == map[] && SumRows([]) == 0 && SumBytes([]) == 0
  {
  }

  /** Estimates and lookup table of one plan. */
  method PlanTotals(tables: seq<Table>) returns (tier: Tier, planned: map<string, Table>)
    ensures tier == Tier(|tables|, SumRows(tables), SumBytes(tables), ZERO)
    ensures planned == PlanTables(tables)
  {
    hide PlanTables, SumRows, SumBytes, TableEventName;
    tier, planned := Tier(|tables|, 0, 0, ZERO), map[];
    NothingPlanned();
    for i := 0 to |tables|
      invariant tier == Tier(|tables|, SumRows(tables[..i]), SumBytes(tables[..i]), ZERO)
      invariant planned == PlanTables(tables[..i])
    {
      PlanStep(tables, i);
      planned := planned[TableEventName(tables[i]) := tables[i]];
      tier := tier.(rowsEstimated := tier.rowsEstimated + tables[i].rows, bytesEstimated := tier.bytesEstimated + tables[i].sizeBytes);
    }
    assert tables[..|tables|] == tables;
  }

  /** The queue counters are the sums over the whole history, and never pass their estimate. */
  ghost predicate QueueShows(queue: Tier, results: seq<TableRow>, initial: string, history: seq<Event>) {
    && queue.done == DoneTally(history) && queue.done.rows <= queue.rowsEstimated
    && results == TableRows(initial, history)
  }

  /** The database counters are the sums since the last switch. */
  ghost predicate DBShows(db: Tier, current: string, seen: set<string>, initial: string, history: seq<Event>) {
    && db.done == DoneTally(SinceSwitch(initial, history)) && db.done.rows <= db.rowsEstimated
    && current == CurrentDB(initial, history) && seen == SeenDBs(initial, history)
  }

  /** The counters that depend on nothing but the history. */
  datatype Shown = Shown(queue: Tier, results: seq<TableRow>, db: Tier, current: string, seen: set<string>, flight: Flight, errors: nat)

  ghost predicate Shows(s: Shown, initial: string, history: seq<Event>) {
    && QueueShows(s.queue, s.results, initial, history) && DBShows(s.db, s.current, s.seen, initial, history)
    && s.flight == FlightOf(initial, history) && s.errors == Failures(history)
  }

  ghost predicate Stepped(s: Shown, t: Shown, e: Event) {
    var switched := e.database != "" && e.database != s.current;
    && t.queue.done == Plus(s.queue.done, DoneTallyOf(e)) && t.queue.done.rows <= t.queue.rowsEstimated
    && t.db.done == Plus(if switched then ZERO else s.db.done, DoneTallyOf(e)) && t.db.done.rows <= t.db.rowsEstimated
    && t.current == (if switched then e.database else s.current)
    && t.seen == (if switched then s.seen + {e.database} else s.seen)
    && t.results == (if e.name.TableCopyDone? then s.results + [TableRow(t.current, e.table, e.rows, e.bytes)] else s.results)
    && t.flight == AfterEvent(if switched then NOTHING else s.flight, e)
    && t.errors == (if e.name.SyncFailed? then s.errors + 1 else s.errors)
  }

  /** What a done event does to the counters, number by number: it is added to both tiers, the database's
      starting over when another database comes up, and gets a result row. */
  ghost predicate Commits(was: Shown, now: Shown, e: Event) {
    && now.queue.done == Tally(was.queue.done.tables + 1, was.queue.done.rows + e.rows, was.queue.done.bytes + e.bytes)
    && (e.database != "" && e.database != was.current ==> now.db.done == Tally(1, e.rows, e.bytes))
    && (e.database == "" || e.database == was.current ==>
          now.db.done == Tally(was.db.done.tables + 1, was.db.done.rows + e.rows, was.db.done.bytes + e.bytes))
    && now.results == was.results + [TableRow(now.current, e.table, e.rows, e.bytes)]
  }

  /** Any other event leaves them alone. */
  ghost predicate CommitsNothing(was: Shown, now: Shown, e: Event) {
    && now.queue.done == was.queue.done && now.results == was.results
    && (e.database != "" && e.database != was.current ==> now.db.done == Tally(0, 0, 0))
    && (e.database == "" || e.database == was.current ==> now.db.done == was.db.done)
  }

  /** And to the table shown in flight. */
  ghost predicate EventFlies(was: Shown, now: Shown, e: Event) {
    match e.name
    case TableCopyStart => now.flight == Flight(e.table, 0, 0.0)
    case TableCopyProgress => now.flight == Flight(e.table, e.bytes, e.percent)
    case TableCopyDone => now.flight == Flight("", 0, 0.0)
    case _ => now.flight == if e.database != "" && e.database != was.current then Flight("", 0, 0.0) else was.flight
  }

  lemma OneEvent(was: Tally, now: Tally, e: Event)
    requires now == Plus(was, DoneTallyOf(e))
    ensures e.name.TableCopyDone? ==> now == Tally(was.tables + 1, was.rows + e.rows, was.bytes + e.bytes)
    ensures !e.name.TableCopyDone? ==> now == was
  {
  }

  lemma SteppedCounts(was: Shown, now: Shown, e: Event)
    requires Stepped(was, now, e)
    ensures if e.name.TableCopyDone? then Commits(was, now, e) else CommitsNothing(was, now, e)
  {
    hide Plus, DoneTallyOf;
    OneEvent(was.queue.done, now.queue.done, e);
    OneEvent(if e.database != "" && e.database != was.current then ZERO else was.db.done, now.db.done, e);
  }

  lemma SteppedFlies(was: Shown, now: Shown, e: Event)
    requires Stepped(was, now, e)
    ensures EventFlies(was, now, e)
  {
  }

  /** Counters that move like this keep following the history. */
  lemma ShownStep(s: Shown, t: Shown, initial: string, history: seq<Event>, e: Event)
    requires Shows(s, initial, history) && Stepped(s, t, e)
    ensures Shows(t, initial, history + [e])
  {
    hide DoneTally, Plus, DoneTallyOf, CurrentDB, TableRows, SeenDBs, SinceSwitch, Failures, FlightOf, AfterEvent;
    HistoryStep(initial, history, e);
  }

  /** What is known of the plans: those registered, the queue's row estimate, and the tier of the
      database shown. */
  datatype Planned = Planned(dbPlans: map<string, DBPlan>, queueRows: nat, db: Tier, database: string)

  /** The database tier carries the totals of that database's plan, when there was one; an estimate that
      reality passed has been lifted. */
  ghost predicate CarriesPlan(db: Tier, dbPlans: map<string, DBPlan>, database: string) {
    if database in dbPlans then
      && db.tablesTotal == |dbPlans[database].tables|
      && db.bytesEstimated == dbPlans[database].bytes
      && dbPlans[database].rows <= db.rowsEstimated
    else db.tablesTotal == 0 && db.bytesEstimated == 0
  }

  /** An event registers nothing; it shows another database, with that database's plan, exactly when it
      names one. */
  ghost predicate EventMoves(was: Planned, now: Planned, e: Event) {
    && now.dbPlans == was.dbPlans && was.queueRows <= now.queueRows
    && if e.database != "" && e.database != was.database then now.database == e.database && CarriesPlan(now.db, was.dbPlans, e.database)
       else
         && now.database == was.database && now.db.tablesTotal == was.db.tablesTotal
         && now.db.bytesEstimated == was.db.bytesEstimated && was.db.rowsEstimated <= now.db.rowsEstimated
  }

  /** Counters are grouped by tier: the whole queue, the current database, the table in flight. */
  class LiveProgress {
    var errors: nat
    var dbIndex: nat
    var dbTotal: nat
    var queue: Tier
    var currentDatabase: string
    var db: Tier
    var current: Current
    var queueAnim: real
    var dbAnim: real
    var log: seq<EventRow>
    var tableResults: seq<TableRow>
    var planTables: map<string, Table>
    var seenDBs: set<string>
    var dbPlans: map<string, DBPlan>
    ghost var initial: string
    ghost var history: seq<Event>

    ghost function Now(): Shown
      reads this`queue, this`tableResults, this`db, this`currentDatabase, this`seenDBs, this`current, this`errors
    {
      Shown(queue, tableResults, db, currentDatabase, seenDBs, Flight(current.table, current.bytes, current.percent), errors)
    }

    ghost function PlannedNow(): Planned
      reads this`dbPlans, this`queue, this`db, this`currentDatabase
    {
      Planned(dbPlans, queue.rowsEstimated, db, currentDatabase)
    }

    ghost predicate Counted()
      reads this`dbIndex, this`dbTotal, this`seenDBs
    {
      dbIndex == |seenDBs| && (dbTotal > 0 ==> dbIndex <= dbTotal)
    }

    ghost predicate Display()
      reads this`log, this`queueAnim, this`dbAnim, this`history
    {
      && NewestFirst(log, history)
      && 0.0 <= queueAnim <= 100.0 && 0.0 <= dbAnim <= 100.0
    }

    ghost predicate Valid()
      reads this
    {
      && Shows(Now(), initial, history)
      && Counted() && Display()
      // Rows in flight are unknown: they show up only once their table is committed.
      && current.rows == 0
    }

    /** For one plan: its database is shown, but not counted, from the start. */
    constructor ForPlan(database: string, tables: seq<Table>)
      ensures Valid() && history == [] && initial == database && dbTotal == 0
      ensures queue == db && queue.tablesTotal == |tables| && queue.done == Tally(0, 0, 0)
      ensures queue.rowsEstimated == SumOf(seq(|tables|, i requires 0 <= i < |tables| => tables[i].rows))
      ensures queue.bytesEstimated == SumOf(seq(|tables|, i requires 0 <= i < |tables| => tables[i].sizeBytes))
      ensures planTables == PlanTables(tables) && dbPlans == map[]
    {
      errors, dbIndex, dbTotal := 0, 0, 0;
      current, queueAnim, dbAnim, log, tableResults, seenDBs, dbPlans := NO_TABLE, 0.0, 0.0, [], [], {}, map[];
      var tier, planned := PlanTotals(tables);
      PlanSums(tables);
      planTables, queue, db := planned, tier, tier;
      currentDatabase, initial, history := database, database, [];
      new;
      NoHistory(initial);
    }

    /** For a queue of databases: sizes and table counts from the catalog, rows only as plans get registered. */
    constructor ForQueue(databases: seq<Database>)
      ensures Valid() && history == [] && initial == "" && dbTotal == |databases| && dbPlans == map[]
      ensures queue.bytesEstimated == SumOf(seq(|databases|, i requires 0 <= i < |databases| => databases[i].sizeBytes))
      ensures queue.tablesTotal == SumOf(seq(|databases|, i requires 0 <= i < |databases| => databases[i].tableCount))
      ensures queue.rowsEstimated == 0 && db == Tier(0, 0, 0, ZERO)
    {
      errors, dbIndex, dbTotal := 0, 0, |databases|;
      current, queueAnim, dbAnim, log, tableResults, seenDBs, dbPlans := NO_TABLE, 0.0, 0.0, [], [], {}, map[];
      ghost var sizes := seq(|databases|, i requires 0 <= i < |databases| => databases[i].sizeBytes);
      ghost var counts := seq(|databases|, i requires 0 <= i < |databases| => databases[i].tableCount);
      var tier := Tier(0, 0, 0, ZERO);
      for i := 0 to |databases|
        invariant tier == Tier(SumOf(counts[..i]), 0, SumOf(sizes[..i]), ZERO)
      {
        assert sizes[..i + 1][..i] == sizes[..i] && counts[..i + 1][..i] == counts[..i];
        tier := tier.(bytesEstimated := tier.bytesEstimated + databases[i].sizeBytes, tablesTotal := tier.tablesTotal + databases[i].tableCount);
      }
      assert sizes[..|databases|] == sizes && counts[..|databases|] == counts;
      planTables, queue, db := map[], tier, Tier(0, 0, 0, ZERO);
      currentDatabase, initial, history := "", "", [];
      new;
      NoHistory(initial);
    }

    /** Remembers a planned database until its run starts. */
    method RegisterDB(database: string, tables: seq<Table>, rows: nat, bytes: nat)
      requires Valid()
      modifies this`dbPlans, this`queue
      ensures Valid()
      ensures dbPlans == old(dbPlans)[database := DBPlan(tables, rows, bytes)]
      ensures queue == old(queue).(rowsEstimated := old(queue).rowsEstimated + rows)
    {
      dbPlans := dbPlans[database := DBPlan(tables, rows, bytes)];
      queue := queue.(rowsEstimated := queue.rowsEstimated + rows);
    }

    /** Committed bytes and those of the table in flight. */
    function QueueBytesCopied(): nat
      reads this`queue, this`current
    {
      queue.done.bytes + current.bytes
    }

    function DBBytesCopied(): nat
      reads this`db, this`current
    {
      db.done.bytes + current.bytes
    }

    function QueuePercent(): (percent: real)
      reads this`queue
      ensures 0.0 <= percent <= 100.0
      ensures 0 < queue.rowsEstimated && queue.done.rows <= queue.rowsEstimated ==> percent == queue.done.rows as real / queue.rowsEstimated as real * 100.0
    {
      queue.Percent()
    }

    function DBPercent(): (percent: real)
      reads this`db
      ensures 0.0 <= percent <= 100.0
      ensures 0 < db.rowsEstimated && db.done.rows <= db.rowsEstimated ==> percent == db.done.rows as real / db.rowsEstimated as real * 100.0
    {
      db.Percent()
    }

    method ActivateDB(database: string)
      modifies this`db, this`dbAnim, this`planTables
      ensures dbAnim == 0.0 && db == FreshTier(dbPlans, database)
      ensures database in dbPlans ==> db == Tier(|dbPlans[database].tables|, dbPlans[database].rows, dbPlans[database].bytes, Tally(0, 0, 0))
      ensures database !in dbPlans ==> db == Tier(0, 0, 0, Tally(0, 0, 0))
      ensures planTables == if database in dbPlans then PlanTables(dbPlans[database].tables) else map[]
    {
      hide PlanTables, TableEventName;
      NothingPlanned();
      dbAnim := 0.0;
      planTables := map[];
      if database in dbPlans {
        var p := dbPlans[database];
        db := Tier(|p.tables|, p.rows, p.bytes, ZERO);
        var planned := map[];
        for i := 0 to |p.tables|
          invariant planned == PlanTables(p.tables[..i])
          invariant dbAnim == 0.0 && db == FreshTier(dbPlans, database)
        {
          PlanStep(p.tables, i);
          planned := planned[TableEventName(p.tables[i]) := p.tables[i]];
        }
        assert p.tables[..|p.tables|] == p.tables;
        planTables := planned;
      } else {
        db := Tier(0, 0, 0, ZERO);
      }
    }

    method ApplyTableEstimate(e: Event)
      modifies this`current
      ensures current == old(current).(rowsEstimate := current.rowsEstimate, bytesEstimate := current.bytesEstimate)
      ensures e.table in planTables ==> current.rowsEstimate == planTables[e.table].rows && current.bytesEstimate == planTables[e.table].sizeBytes
      ensures e.table !in planTables ==> current.rowsEstimate == old(current).rowsEstimate
      ensures e.table !in planTables ==> current.bytesEstimate == if e.estimated > 0 then e.estimated else old(current).bytesEstimate
    {
      if e.table in planTables {
        var t := planTables[e.table];
        current := current.(rowsEstimate := t.rows, bytesEstimate := t.sizeBytes);
      } else if e.estimated > 0 {
        current := current.(bytesEstimate := e.estimated);
      }
    }

    /** A new database in an event advances the index and swaps the database tier. */
    method SwitchDB(database: string)
      requires Counted()
      modifies this`seenDBs, this`dbIndex, this`dbTotal, this`currentDatabase, this`db, this`dbAnim, this`planTables, this`current
      ensures Counted() && seenDBs == old(seenDBs) + {database}
      ensures dbTotal == if old(dbTotal) > 0 && dbIndex > old(dbTotal) then dbIndex else old(dbTotal)
      ensures currentDatabase == database && db == FreshTier(dbPlans, database) && dbAnim == 0.0 && current == NO_TABLE
      ensures database in dbPlans ==> db == Tier(|dbPlans[database].tables|, dbPlans[database].rows, dbPlans[database].bytes, Tally(0, 0, 0))
      ensures database !in dbPlans ==> db == Tier(0, 0, 0, Tally(0, 0, 0))
      ensures planTables == if database in dbPlans then PlanTables(dbPlans[database].tables) else map[]
    {
      hide PlanTables;
      if database !in seenDBs {
        seenDBs := seenDBs + {database};
        dbIndex := |seenDBs|;
        if dbTotal > 0 && dbIndex > dbTotal {
          dbTotal := dbIndex;
        }
      } else {
        assert seenDBs == seenDBs + {database};
      }
      currentDatabase := database;
      ActivateDB(database);
      current := NO_TABLE;
    }

    method EnterDB(database: string)
      requires Counted() && 0.0 <= dbAnim <= 100.0
      modifies this`seenDBs, this`dbIndex, this`dbTotal, this`currentDatabase, this`db, this`dbAnim, this`planTables, this`current
      ensures Counted() && 0.0 <= dbAnim <= 100.0
      ensures var switched := database != "" && database != old(currentDatabase);
        && currentDatabase == (if switched then database else old(currentDatabase))
        && seenDBs == (if switched then old(seenDBs) + {database} else old(seenDBs))
        && db == (if switched then FreshTier(dbPlans, database) else old(db))
        && current == (if switched then NO_TABLE else old(current))
    {
      hide PlanTables;
      if database != "" && database != currentDatabase {
        SwitchDB(database);
      }
    }

    /** Table-level state and counters for one event. */
    method Count(e: Event)
      requires queue.done.rows <= queue.rowsEstimated && db.done.rows <= db.rowsEstimated
      requires e.database == "" || e.database == currentDatabase
      requires current.rows == 0
      modifies this`current, this`queue, this`db, this`tableResults, this`errors
      ensures queue.done.rows <= queue.rowsEstimated && db.done.rows <= db.rowsEstimated
      ensures queue.done == Plus(old(queue).done, DoneTallyOf(e)) && db.done == Plus(old(db).done, DoneTallyOf(e))
      ensures e.name.TableCopyDone? ==> queue == old(queue).Commit(DoneTallyOf(e)) && db == old(db).Commit(DoneTallyOf(e))
      ensures !e.name.TableCopyDone? ==> queue == old(queue) && db == old(db)
      ensures current.rows == 0 && Flight(current.table, current.bytes, current.percent)
           == AfterEvent(Flight(old(current).table, old(current).bytes, old(current).percent), e)
      ensures tableResults == if e.name.TableCopyDone? then old(tableResults) + [TableRow(currentDatabase, e.table, e.rows, e.bytes)] else old(tableResults)
      ensures errors == if e.name.SyncFailed? then old(errors) + 1 else old(errors)
    {
      hide Plus;
      PlusZero(queue.done);
      PlusZero(db.done);
      match e.name {
        case TableCopyStart =>
          current := current.(table := e.table, rows := 0, bytes := 0, percent := 0.0);
          ApplyTableEstimate(e);
        case TableCopyProgress =>
          current := current.(table := e.table, bytes := e.bytes);
          ApplyTableEstimate(e);
          current := current.(percent := e.percent);
        case TableCopyDone =>
          current := current.(table := e.table, rows := e.rows, bytes := e.bytes);
          ApplyTableEstimate(e);
          current := current.(percent := 100.0);
          queue := queue.Commit(Tally(1, e.rows, e.bytes));
          db := db.Commit(Tally(1, e.rows, e.bytes));
          RecordTableResult(e);
          current := NO_TABLE;
        case SyncFailed =>
          errors := errors + 1;
        case _ =>
      }
    }

    method RecordTableResult(e: Event)
      modifies this`tableResults
      ensures tableResults == old(tableResults) + [TableRow(if e.database == "" then currentDatabase else e.database, e.table, e.rows, e.bytes)]
    {
      var database := e.database;
      if database == "" {
        database := currentDatabase;
      }
      tableResults := tableResults + [TableRow(database, e.table, e.rows, e.bytes)];
    }

    /** Moves both bars a quarter of the way up, or straight down, to their percentages. */
    method Ease()
      requires 0.0 <= queueAnim && 0.0 <= dbAnim
      modifies this`queueAnim, this`dbAnim
      ensures 0.0 <= queueAnim <= QueuePercent() && 0.0 <= dbAnim <= DBPercent()
      ensures queueAnim == EaseToward(old(queueAnim), QueuePercent()) && dbAnim == EaseToward(old(dbAnim), DBPercent())
    {
      hide Progress.Percent;
      queueAnim := EaseToward(queueAnim, QueuePercent());
      dbAnim := EaseToward(dbAnim, DBPercent());
    }

    method PrependEvent(e: Event)
      requires NewestFirst(log, history)
      modifies this`log
      ensures NewestFirst(log, history + [e])
    {
      hide NewestFirst;
      LogStep(history, e, log);
      log := [EventRow(e.name, e.table)] + log;
      if |log| > LOG_LIMIT {
        log := log[..LOG_LIMIT];
      }
    }

    /** Everything an event changes but the bars and the log. */
    method Route(e: Event)
      requires Counted() && 0.0 <= dbAnim <= 100.0 && Shows(Now(), initial, history) && current.rows == 0
      modifies this`seenDBs, this`dbIndex, this`dbTotal, this`currentDatabase, this`queue, this`db, this`dbAnim, this`planTables, this`current,
               this`tableResults, this`errors
      ensures Counted() && 0.0 <= dbAnim <= 100.0
      ensures Stepped(old(Now()), Now(), e) && queue.tablesTotal == old(queue).tablesTotal && current.rows == 0
      ensures EventMoves(old(PlannedNow()), PlannedNow(), e)
      ensures errors == if e.name.SyncFailed? then old(errors) + 1 else old(errors)
    {
      hide Plus, DoneTallyOf, CurrentDB, TableRows, SeenDBs, SinceSwitch, Failures, DoneTally, FlightOf, AfterEvent;
      EnterDB(e.database);
      Count(e);
    }

    /** Records one event; every derived number follows the longer history. */
    method Apply(e: Event)
      requires Valid()
      modifies this
      ensures Valid() && history == old(history) + [e] && initial == old(initial)
      ensures queueAnim <= QueuePercent() && dbAnim <= DBPercent()
      ensures unchanged(this`dbPlans) && queue.tablesTotal == old(queue).tablesTotal
      ensures EventMoves(old(PlannedNow()), PlannedNow(), e)
      ensures if e.name.TableCopyDone? then Commits(old(Now()), Now(), e) else CommitsNothing(old(Now()), Now(), e)
      ensures EventFlies(old(Now()), Now(), e)
      ensures errors == if e.name.SyncFailed? then old(errors) + 1 else old(errors)
      // The byte counters show what is committed and what the last event says of the table in flight.
      ensures e.name.TableCopyProgress? ==> QueueBytesCopied() == queue.done.bytes + e.bytes && DBBytesCopied() == db.done.bytes + e.bytes
      ensures e.name.TableCopyStart? || e.name.TableCopyDone? ==> QueueBytesCopied() == queue.done.bytes && DBBytesCopied() == db.done.bytes
    {
      hide Shows, Stepped, NewestFirst, Progress.Percent, EaseToward, EventMoves, Commits, CommitsNothing;
      ghost var before := Now();
      Route(e);
      ShownStep(before, Now(), initial, history, e);
      SteppedCounts(before, Now(), e);
      SteppedFlies(before, Now(), e);
      Ease();
      PrependEvent(e);
      history := history + [e];
    }

    /** Advances the animation alone. */
    method Tick()
      requires Valid()
      modifies this`queueAnim, this`dbAnim
      ensures Valid()
      ensures queueAnim == EaseTimes(old(queueAnim), QueuePercent(), 1) && queueAnim <= QueuePercent()
      ensures dbAnim == EaseTimes(old(dbAnim), DBPercent(), 1) && dbAnim <= DBPercent()
    {
      hide Progress.Percent;
      Ease();
      assert EaseTimes(old(queueAnim), QueuePercent(), 0) == old(queueAnim);
      assert EaseTimes(old(dbAnim), DBPercent(), 0) == old(dbAnim);
    }
  }

  lemma NoHistory(initial: string)
    ensures DoneTally([]) == ZERO && TableRows(initial, []) == [] && SinceSwitch(initial, []) == []
    ensures CurrentDB(initial, []) == initial && SeenDBs(initial, []) == {} && Failures([]) == 0 && NewestFirst([], [])
    ensures FlightOf(initial, []) == NOTHING
  {
    assert EventTallies([]) == [];
  }

  lemma DoneTallyAppend(history: seq<Event>, e: Event)
    ensures DoneTally(history + [e]) == Plus(DoneTally(history), DoneTallyOf(e))
  {
    hide Sum, Plus;
    assert EventTallies(history + [e]) == EventTallies(history) + [DoneTallyOf(e)];
    SumAppend(EventTallies(history), DoneTallyOf(e));
  }

  /** How each reading of the history changes with one more event. */
  lemma HistoryStep(initial: string, history: seq<Event>, e: Event)
    ensures var h := history + [e];
      && DoneTally(h) == Plus(DoneTally(history), DoneTallyOf(e))
      && CurrentDB(initial, h) == (if e.database != "" then e.database else CurrentDB(initial, history))
      && SeenDBs(initial, h) == SeenDBs(initial, history) + (if Switches(initial, history, e) then {e.database} else {})
      && DoneTally(SinceSwitch(initial, h))
           == Plus(if Switches(initial, history, e) then ZERO else DoneTally(SinceSwitch(initial, history)), DoneTallyOf(e))
      && TableRows(initial, h) == TableRows(initial, history)
           + (if e.name.TableCopyDone? then [TableRow(CurrentDB(initial, h), e.table, e.rows, e.bytes)] else [])
      && FlightOf(initial, h) == AfterEvent(if Switches(initial, history, e) then NOTHING else FlightOf(initial, history), e)
      && Failures(h) == Failures(history) + (if e.name.SyncFailed? then 1 else 0)
  {
    hide DoneTally, Sum, Plus, DoneTallyOf;
    var h := history + [e];
    assert h[..|h| - 1] == history;
    DoneTallyAppend(history, e);
    if Switches(initial, history, e) {
      NoHistory(initial);
      DoneTallyAppend([], e);
      assert [] + [e] == [e];
    } else {
      DoneTallyAppend(SinceSwitch(initial, history), e);
    }
  }

  lemma LogStep(history: seq<Event>, e: Event, log: seq<EventRow>)
    requires NewestFirst(log, history)
    ensures var longer := [EventRow(e.name, e.table)] + log;
            NewestFirst(if |longer| > LOG_LIMIT then longer[..LOG_LIMIT] else longer, history + [e])
  {
    var longer := [EventRow(e.name, e.table)] + log;
    var kept := if |longer| > LOG_LIMIT then longer[..LOG_LIMIT] else longer;
    forall i | 0 <= i < |kept| ensures kept[i] == RowAt(history + [e], i) {
      assert kept[i] == longer[i];
      LogEntry(history, e, log, i);
    }
    RowsAreNewest(kept, history + [e]);
  }

  function RowAt(history: seq<Event>, i: nat): EventRow
    requires i < |history|
  {
    var e := history[|history| - 1 - i];
    EventRow(e.name, e.table)
  }

  lemma LogEntry(history: seq<Event>, e: Event, log: seq<EventRow>, i: nat)
    requires NewestFirst(log, history) && i <= |log|
    ensures ([EventRow(e.name, e.table)] + log)[i] == RowAt(history + [e], i)
  {
    if i > 0 {
      assert log[i - 1] == RowAt(history, i - 1);
    }
  }

  lemma RowsAreNewest(log: seq<EventRow>, history: seq<Event>)
    requires |log| == (if |history| < 128 then |history| else 128) && forall i :: 0 <= i < |log| ==> log[i] == RowAt(history, i)
    ensures NewestFirst(log, history)
  {
  }
}
