/** The byte counters of the dashboard, which count committed tables and the one in flight
    (tui/progress.go): no table of a run is counted twice. */
module BytesShown {
  import opened Models
  import opened Tallies
  import opened Events
  import opened Execution
  import opened Dashboard
  import opened Watching
  import opened JobEvents
  import Pool = CopyPool

  // ---------- one table ----------

  /** The bytes last reported of a table. */
  function LastBytes(events: seq<JobEvent>): nat {
    if events == [] || events[|events| - 1].CopyStart? then 0 else events[|events| - 1].bytes
  }

  /** The bytes of a table that is done. */
  function DoneBytes(events: seq<JobEvent>): nat {
    if events == [] || !events[|events| - 1].CopyDone? then 0 else events[|events| - 1].bytes
  }

  ghost predicate DoneIsLast(events: seq<JobEvent>) {
    forall i :: 0 <= i < |events| - 1 ==> !events[i].CopyDone?
  }

  lemma GrammarEndsWithDone(events: seq<JobEvent>)
    requires Pool.TableGrammar(events)
    ensures DoneIsLast(events)
  {
    if Pool.CopiedInFull(events) {
      var bytes, rows :| CompleteJob(events, bytes, rows);
      var flight := events[..|events| - 1];
      assert forall i :: 0 <= i < |flight| ==> flight[i] == events[i] && !flight[i].CopyDone?;
    }
  }

  /** What was shown of a table by some moment is the beginning of what is shown of it in the end. */
  lemma {:induction false} ProjectPrefix(copies: seq<Pool.PoolEvent>, m: nat, j: nat)
    requires m <= |copies|
    ensures Pool.Project(copies[..m], j) <= Pool.Project(copies, j)
    decreases |copies|
  {
    if m == |copies| {
      assert copies[..m] == copies;
    } else {
      var init, last := copies[..|copies| - 1], copies[|copies| - 1];
      ProjectPrefix(init, m, j);
      Pool.ProjectAppend(init, last, j);
      assert init + [last] == copies && init[..m] == copies[..m];
    }
  }

  // ---------- all tables ----------

  function DonePerTable(copies: seq<Pool.PoolEvent>, n: nat): seq<nat> {
    seq(n, j requires 0 <= j < n => DoneBytes(Pool.Project(copies, j)))
  }

  function LastPerTable(copies: seq<Pool.PoolEvent>, n: nat): seq<nat> {
    seq(n, j requires 0 <= j < n => LastBytes(Pool.Project(copies, j)))
  }

  /** Each of `n` tables follows its grammar so far. */
  ghost predicate Orderly(copies: seq<Pool.PoolEvent>, n: nat) {
    && (forall i :: 0 <= i < |copies| ==> copies[i].job < n)
    && forall j :: 0 <= j < n ==> DoneIsLast(Pool.Project(copies, j))
  }

  lemma OrderlyPrefix(copies: seq<Pool.PoolEvent>, m: nat, n: nat)
    requires Orderly(copies, n) && m <= |copies|
    ensures Orderly(copies[..m], n)
  {
    forall j | 0 <= j < n ensures DoneIsLast(Pool.Project(copies[..m], j)) {
      ProjectPrefix(copies, m, j);
      assert DoneIsLast(Pool.Project(copies, j));
    }
  }

  /** The committed bytes are those of the tables that are done, each once. */
  lemma {:induction false} CommittedPerTable(copies: seq<Pool.PoolEvent>, n: nat)
    requires Orderly(copies, n)
    ensures Pool.DoneTally(copies).bytes == SumOf(DonePerTable(copies, n))
  {
    hide SumOf, Sum, Pool.Project, DoneIsLast;
    if copies == [] {
      NothingCommitted(n);
    } else {
      var init, last := copies[..|copies| - 1], copies[|copies| - 1];
      OrderlyPrefix(copies, |copies| - 1, n);
      CommittedPerTable(init, n);
      assert init + [last] == copies;
      OneMoreEvent(init, last, n);
      var before := DonePerTable(init, n);
      SumOfUpdate(before, last.job, Pool.EventTally(last.event).bytes);
      assert Pool.TraceTallies(copies) == Pool.TraceTallies(init) + [Pool.EventTally(last.event)];
      SumAppend(Pool.TraceTallies(init), Pool.EventTally(last.event));
    }
  }

  lemma NothingCommitted(n: nat)
    ensures Pool.DoneTally([]).bytes == SumOf(DonePerTable([], n))
  {
    assert Pool.TraceTallies([]) == [];
    assert DonePerTable([], n) == seq(n, _ => 0);
    ZerosAddUp(DonePerTable([], n));
  }

  lemma {:induction false} ZerosAddUp(xs: seq<nat>)
    requires forall i :: 0 <= i < |xs| ==> xs[i] == 0
    ensures SumOf(xs) == 0
  {
    if xs != [] {
      ZerosAddUp(xs[..|xs| - 1]);
    }
  }

  /** One more event: its table was not done before. */
  lemma OneMoreEvent(init: seq<Pool.PoolEvent>, last: Pool.PoolEvent, n: nat)
    requires Orderly(init + [last], n)
    ensures last.job < n && DonePerTable(init, n)[last.job] == 0
    ensures DonePerTable(init + [last], n) == DonePerTable(init, n)[last.job := Pool.EventTally(last.event).bytes]
  {
    hide Pool.Project;
    var copies := init + [last];
    assert copies[|init|].job < n;
    forall j | 0 <= j < n ensures Pool.Project(copies, j) == if last.job == j then Pool.Project(init, j) + [last.event] else Pool.Project(init, j) {
      Pool.ProjectAppend(init, last, j);
    }
    var events := Pool.Project(init, last.job);
    assert DoneIsLast(events + [last.event]);
    assert events != [] ==> (events + [last.event])[|events| - 1] == events[|events| - 1];
  }

  /** The bytes of the copy shown in flight: the last event's, if it is a progress event. */
  function FlightBytes(copies: seq<Pool.PoolEvent>): nat {
    if copies != [] && copies[|copies| - 1].event.CopyProgress? then copies[|copies| - 1].event.bytes else 0
  }

  lemma {:induction false} SumOfAtMost(xs: seq<nat>, ys: seq<nat>)
    requires |xs| == |ys| && forall i :: 0 <= i < |xs| ==> xs[i] <= ys[i]
    ensures SumOf(xs) <= SumOf(ys)
  {
    if xs != [] {
      SumOfAtMost(xs[..|xs| - 1], ys[..|ys| - 1]);
    }
  }

  /** Committed and in flight, no table counts twice: together at most what was last reported of each. */
  lemma EachTableOnce(copies: seq<Pool.PoolEvent>, n: nat)
    requires Orderly(copies, n)
    ensures Pool.DoneTally(copies).bytes + FlightBytes(copies) <= SumOf(LastPerTable(copies, n))
  {
    hide SumOf, Pool.DoneTally, Orderly;
    CommittedPerTable(copies, n);
    if FlightBytes(copies) > 0 {
      var init, last := copies[..|copies| - 1], copies[|copies| - 1];
      assert init + [last] == copies;
      OneMoreEvent(init, last, n);
      Pool.ProjectAppend(init, last, last.job);
      var flying := DonePerTable(copies, n)[last.job := last.event.bytes];
      SumOfUpdate(DonePerTable(copies, n), last.job, last.event.bytes);
      SumOfAtMost(flying, LastPerTable(copies, n));
    } else {
      SumOfAtMost(DonePerTable(copies, n), LastPerTable(copies, n));
    }
  }

  // ---------- the dashboard ----------

  function EventFlight(e: Event): nat {
    if e.name.TableCopyProgress? then e.bytes else 0
  }

  /** The copy shown in flight is the last table event's, or none after a switch of database. */
  lemma {:induction false} FlightIsLast(initial: string, before: seq<Event>, events: seq<Event>)
    requires TableEventsOf(events) != []
    ensures FlightOf(initial, before + events).bytes <= EventFlight(TableEventsOf(events)[|TableEventsOf(events)| - 1])
  {
    hide CurrentDB;
    var init, last := events[..|events| - 1], events[|events| - 1];
    assert (before + events)[..|before + events| - 1] == before + init;
    if !IsTableEvent(last) {
      FlightIsLast(initial, before, init);
    }
  }

  lemma {:induction false} TallyOfTableEvents(trace: seq<Event>)
    ensures DoneTally(trace) == DoneTally(TableEventsOf(trace))
  {
    hide DoneTally, DoneTallyOf;
    if trace != [] {
      var init, last := trace[..|trace| - 1], trace[|trace| - 1];
      TallyOfTableEvents(init);
      assert init + [last] == trace;
      if IsTableEvent(last) {
        DoneTallyAppend(init, last);
        DoneTallyAppend(TableEventsOf(init), last);
      } else {
        DoneTallyOfOther(init, last);
      }
    }
  }

  lemma {:induction false} TableEventsPrefix(trace: seq<Event>, i: nat)
    requires i <= |trace|
    ensures TableEventsOf(trace[..i]) <= TableEventsOf(trace)
    decreases |trace|
  {
    if i == |trace| {
      assert trace[..i] == trace;
    } else {
      var init := trace[..|trace| - 1];
      TableEventsPrefix(init, i);
      assert init[..i] == trace[..i];
    }
  }

  /** The pool's events that are behind the first `i` events of a trace. */
  lemma ShownSoFar(tables: seq<Table>, trace: seq<Event>, copies: seq<Pool.PoolEvent>, i: nat) returns (m: nat)
    requires ShowsCopies(tables, trace, copies) && i <= |trace|
    ensures m == |TableEventsOf(trace[..i])| <= |copies| && Orderly(copies[..m], |tables|)
    ensures forall k :: 0 <= k < |copies| ==> copies[k].job < |tables|
    ensures TableEventsOf(trace[..i]) == TableEvents(tables, copies[..m])
  {
    hide TableEventsOf, Pool.Project, Pool.TableGrammar, DoneIsLast;
    m := |TableEventsOf(trace[..i])|;
    TableEventsPrefix(trace, i);
    assert TableEvents(tables, copies)[..m] == TableEvents(tables, copies[..m]);
    forall j | 0 <= j < |tables| ensures DoneIsLast(Pool.Project(copies, j)) {
      GrammarEndsWithDone(Pool.Project(copies, j));
    }
    OrderlyPrefix(copies, m, |tables|);
  }

  /** At any moment of a run, once a table event has come: what the byte counter has gained, the table in
      flight included, is at most what was last reported of each table, each counted once. */
  lemma NothingCountedTwice(plan: SyncPlan, initial: string, before: seq<Event>, trace: seq<Event>, copies: seq<Pool.PoolEvent>, i: nat)
    requires ShowsCopies(plan.tables, trace, copies) && i <= |trace| && TableEventsOf(trace[..i]) != []
    ensures var h, m := before + AttributedAll(trace[..i], plan.database), |TableEventsOf(trace[..i])|;
      && m <= |copies|
      && DoneTally(h).bytes + FlightOf(initial, h).bytes <= DoneTally(before).bytes + SumOf(LastPerTable(copies[..m], |plan.tables|))
  {
    hide DoneTally, Pool.DoneTally, SumOf, FlightOf, TableEventsOf, Orderly, ShowsCopies, AttributedAll, LastPerTable;
    var m := ShownSoFar(plan.tables, trace, copies, i);
    var events := AttributedAll(trace[..i], plan.database);
    DoneTallyConcat(before, events);
    AttributionKeepsTally(trace[..i], plan.database);
    TallyOfTableEvents(trace[..i]);
    TableEventsTally(plan.tables, copies[..m]);
    AttributedTableEvents(trace[..i], plan.database);
    LastShown(plan, trace, copies, i, m);
    FlightIsLast(initial, before, events);
    EachTableOnce(copies[..m], |plan.tables|);
  }

  lemma LastShown(plan: SyncPlan, trace: seq<Event>, copies: seq<Pool.PoolEvent>, i: nat, m: nat)
    requires i <= |trace| && 0 < m <= |copies| && (forall k :: 0 <= k < m ==> copies[k].job < |plan.tables|)
    requires TableEventsOf(trace[..i]) == TableEvents(plan.tables, copies[..m])
    ensures var attributed := TableEventsOf(AttributedAll(trace[..i], plan.database));
            attributed != [] && EventFlight(attributed[|attributed| - 1]) == FlightBytes(copies[..m])
  {
    hide TableEventsOf;
    AttributedTableEvents(trace[..i], plan.database);
  }

  lemma {:induction false} SwitchDropsEvents(initial: string, history: seq<Event>)
    ensures DoneTally(SinceSwitch(initial, history)).bytes <= DoneTally(history).bytes
  {
    hide DoneTally, DoneTallyOf, CurrentDB;
    if history != [] {
      var init, last := history[..|history| - 1], history[|history| - 1];
      SwitchDropsEvents(initial, init);
      assert init + [last] == history;
      DoneTallyAppend(init, last);
      DoneTallyAppend(SinceSwitch(initial, init), last);
      DoneTallyAppend([], last);
      EmptySum();
      assert [] + [last] == [last];
    }
  }

  /** What the two byte counters of the screen mean: at any moment of a run the queue's has gained at most
      what was last reported of each table, each once, and the database's lies within it. */
  lemma CountersCountOnce(p: LiveProgress, plan: SyncPlan, before: seq<Event>, trace: seq<Event>, copies: seq<Pool.PoolEvent>, i: nat)
    requires p.Valid() && i <= |trace| && p.history == before + AttributedAll(trace[..i], plan.database)
    requires ShowsCopies(plan.tables, trace, copies) && TableEventsOf(trace[..i]) != []
    ensures |TableEventsOf(trace[..i])| <= |copies|
    ensures p.QueueBytesCopied() <= DoneTally(before).bytes + SumOf(LastPerTable(copies[..|TableEventsOf(trace[..i])|], |plan.tables|))
    ensures p.DBBytesCopied() <= p.QueueBytesCopied()
  {
    hide DoneTally, SumOf, FlightOf, TableEventsOf, ShowsCopies, AttributedAll, LastPerTable, SinceSwitch, TableRows, SeenDBs, CurrentDB;
    NothingCountedTwice(plan, p.initial, before, trace, copies, i);
    SwitchDropsEvents(p.initial, p.history);
  }
}
