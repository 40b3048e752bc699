/** A whole sync seen on the screen (tui/app.go): the plans and runs of a queue of databases, the
    hand-over of their messages, and the dashboard at the end. */
module ScreenSync {
  import opened Models
  import opened Tallies
  import opened Events
  import opened Execution
  import opened Dashboard
  import opened Watching
  import opened PumpAccounts
  import opened PumpLosses
  import Pump = MessagePump
  import Pool = CopyPool

  // ---------- the script ----------

  function PlanMessage(plan: SyncPlan): Pump.Send {
    Pump.Send(Pump.PlanReady(plan.database, plan.tables, SumRows(plan.tables), SumBytes(plan.tables)), false)
  }

  /** All plans, one after another. */
  function PlanLane(plans: seq<SyncPlan>): seq<Pump.Send> {
    seq(|plans|, i requires 0 <= i < |plans| => PlanMessage(plans[i]))
  }

  /** The events of one run, and whether the context of each is cancelled when it is sent. */
  function RunLane(events: seq<Event>, cancelled: seq<bool>): seq<Pump.Send>
    requires |cancelled| == |events|
  {
    seq(|events|, i requires 0 <= i < |events| => Pump.Send(Pump.Progress(events[i]), cancelled[i]))
  }

  /** startSyncCmd runs under a context that nobody cancels; only the pool's own context, which carries
      the table events, is cancelled, and only when the copy stage fails. */
  predicate PoolContext(trace: seq<Event>, events: seq<Event>, cancelled: seq<bool>) {
    && |cancelled| == |events|
    && forall i :: 0 <= i < |events| && cancelled[i] ==> IsTableEvent(events[i]) && StageFailed(CopyTables) in Skeleton(trace)
  }

  lemma PlanLaneIsSilent(plans: seq<SyncPlan>)
    ensures LaneTally(PlanLane(plans)) == ZERO && LaneEvents(PlanLane(plans)) == []
  {
    hide Sum;
    var lane := PlanLane(plans);
    assert seq(|lane|, i requires 0 <= i < |lane| => SendTally(lane[i])) == seq(|lane|, _ => ZERO);
    SumZeros(|lane|);
    NoLaneEvents(lane);
  }

  lemma {:induction false} NoLaneEvents(lane: seq<Pump.Send>)
    requires forall i :: 0 <= i < |lane| ==> lane[i].msg.PlanReady?
    ensures LaneEvents(lane) == []
  {
    if lane != [] {
      NoLaneEvents(lane[..|lane| - 1]);
    }
  }

  lemma RunLaneReports(events: seq<Event>, cancelled: seq<bool>)
    requires |cancelled| == |events|
    ensures LaneTally(RunLane(events, cancelled)) == DoneTally(events) && LaneEvents(RunLane(events, cancelled)) == events
  {
    hide Sum;
    var lane := RunLane(events, cancelled);
    assert seq(|lane|, i requires 0 <= i < |lane| => SendTally(lane[i])) == EventTallies(events);
    RunLaneEvents(events, cancelled);
  }

  lemma {:induction false} RunLaneEvents(events: seq<Event>, cancelled: seq<bool>)
    requires |cancelled| == |events|
    ensures LaneEvents(RunLane(events, cancelled)) == events
  {
    if events != [] {
      var n := |events| - 1;
      RunLaneEvents(events[..n], cancelled[..n]);
      assert RunLane(events, cancelled)[..n] == RunLane(events[..n], cancelled[..n]);
      assert events == events[..n] + [events[n]];
    }
  }

  /** What the script says after these results, the last of which may be a failure. */
  ghost predicate Tells(script: seq<Pump.Phase>, trace: seq<Event>, results: seq<Tally>, ok: bool) {
    && OneLaneEach(script) && ScriptEvents(script) == trace
    && ScriptTally(script).tables == Sum(results).tables
    && (ok ==> ScriptTally(script) == Sum(results) && NoneCancelled(script))
    && forall o :: Cancelled(script, o) ==> IsTableEvent(Pump.SendAt(script, o).msg.event)
  }

  lemma OneLaneTally(lane: seq<Pump.Send>)
    ensures Sum(LaneTallies([lane])) == LaneTally(lane)
  {
    hide Sum, LaneTally;
    assert LaneTallies([lane]) == [] + [LaneTally(lane)];
    SumAppend([], LaneTally(lane));
    assert Sum([]) == ZERO by { EmptySum(); }
    PlusZero(LaneTally(lane));
  }

  lemma PlansTellNothing(plans: seq<SyncPlan>)
    ensures Tells([[PlanLane(plans)]], [], [], true)
  {
    hide Sum, LaneTallies, LaneTally, LaneEvents, Plus;
    var lane := PlanLane(plans);
    PlanLaneIsSilent(plans);
    OneLaneTally(lane);
    assert [[lane]] == [] + [[lane]];
    ScriptTallyAppend([], [lane]);
    ScriptEventsAppend([], [lane]);
    EmptyScript();
    NothingIsNoEvents();
    PlusZero(ZERO);
    assert Sum([]) == ZERO by { EmptySum(); }
  }

  /** One more run. */
  lemma RunTells(script: seq<Pump.Phase>, trace: seq<Event>, results: seq<Tally>,
                 recorded: seq<Event>, events: seq<Event>, cancelled: seq<bool>, total: Tally, ok: bool)
    requires Tells(script, trace, results, true) && PoolContext(recorded, events, cancelled)
    requires total.tables == DoneTally(events).tables && (ok ==> total == DoneTally(events))
    requires ok ==> StageFailed(CopyTables) !in Skeleton(recorded)
    ensures Tells(script + [[RunLane(events, cancelled)]], trace + events, results + [total], ok)
  {
    hide Sum, LaneTallies, LaneTally, LaneEvents, DoneTally, Skeleton, ScriptTally, ScriptEvents;
    var lane := RunLane(events, cancelled);
    RunLaneReports(events, cancelled);
    OneLaneTally(lane);
    ScriptTallyAppend(script, [lane]);
    ScriptEventsAppend(script, [lane]);
    SumAppend(results, total);
    OriginsOfMore(script, lane);
  }

  /** Where the messages of a longer script come from. */
  lemma OriginsOfMore(script: seq<Pump.Phase>, lane: seq<Pump.Send>)
    ensures var more := script + [[lane]];
      forall o :: Pump.InScript(more, o) ==>
        if o.phase < |script| then Pump.InScript(script, o) && Pump.SendAt(more, o) == Pump.SendAt(script, o)
        else o.pos < |lane| && Pump.SendAt(more, o) == lane[o.pos]
  {
  }

  // ---------- what was shown, left and given up ----------

  ghost predicate NoDone(events: seq<Event>) {
    forall i :: 0 <= i < |events| ==> !events[i].name.TableCopyDone?
  }

  lemma {:induction false} NoDoneIsZero(events: seq<Event>)
    ensures NoDone(events) <==> DoneTally(events).tables == 0
  {
    hide DoneTally;
    if events == [] {
      EmptySum();
    } else {
      var init, last := events[..|events| - 1], events[|events| - 1];
      NoDoneIsZero(init);
      DoneTallyAppend(init, last);
      assert init + [last] == events;
    }
  }

  /** Every event of a list of messages is the event of one of them. */
  lemma {:induction false} EventsAreSent(script: seq<Pump.Phase>, origins: seq<Pump.Origin>)
    requires AllInScript(script, origins)
    ensures forall e :: e in Pump.EventsOf(script, origins) ==>
              exists i :: 0 <= i < |origins| && Pump.SendAt(script, origins[i]).msg == Pump.Progress(e)
  {
    if origins != [] {
      var n := |origins| - 1;
      EventsAreSent(script, origins[..n]);
      forall e | e in Pump.EventsOf(script, origins) ensures exists i :: 0 <= i < |origins| && Pump.SendAt(script, origins[i]).msg == Pump.Progress(e) {
        if e in Pump.EventsOf(script, origins[..n]) {
          var i :| 0 <= i < |origins[..n]| && Pump.SendAt(script, origins[..n][i]).msg == Pump.Progress(e);
          assert Pump.SendAt(script, origins[i]).msg == Pump.Progress(e);
        } else {
          assert Pump.SendAt(script, origins[n]).msg == Pump.Progress(e);
        }
      }
    }
  }

  /** Only cancelled sends are given up. */
  lemma GivenUpWereCancelled(s: Pump.Pump)
    requires Pump.Inv(s) && AllInScript(s.script, s.dropped)
    ensures forall e :: e in Pump.EventsOf(s.script, s.dropped) ==>
              exists o :: Cancelled(s.script, o) && Pump.SendAt(s.script, o).msg == Pump.Progress(e)
  {
    EventsAreSent(s.script, s.dropped);
    forall e | e in Pump.EventsOf(s.script, s.dropped) ensures exists o :: Cancelled(s.script, o) && Pump.SendAt(s.script, o).msg == Pump.Progress(e) {
      var i :| 0 <= i < |s.dropped| && Pump.SendAt(s.script, s.dropped[i]).msg == Pump.Progress(e);
      assert s.dropped[i] in s.dropped;
      assert Cancelled(s.script, s.dropped[i]);
    }
  }

  // ---------- the whole sync ----------

  /** What a screen that is done shows of a sync with these results. */
  ghost predicate ScreenShows(before: Tally, shown: Tally, left: seq<Event>, givenUp: seq<Event>, results: seq<Tally>) {
    // Tables shown, left in the channel and given up are together those of the results, so the screen
    // shows the results' tables exactly when no done event was left or given up.
    && shown.tables + DoneTally(left).tables + DoneTally(givenUp).tables == before.tables + Sum(results).tables
    && (shown.tables == before.tables + Sum(results).tables <==> NoDone(left) && NoDone(givenUp))
  }

  /** The contexts the events of one run are sent under. */
  method SendContexts(trace: seq<Event>, events: seq<Event>) returns (cancelled: seq<bool>)
    ensures PoolContext(trace, events, cancelled)
  {
    ghost var none := seq(|events|, _ => false);
    assert PoolContext(trace, events, none);
    cancelled :| PoolContext(trace, events, cancelled);
  }

  /** A successful run has no failed stage. */
  lemma NoStageFailed(names: seq<EventName>, done: set<Stage>, dryRun: bool)
    requires RunGrammar(names, done, true, dryRun)
    ensures StageFailed(CopyTables) !in names
  {
    hide DonePairs, FirstStages;
    if !dryRun {
      var k: nat, tail :| k <= |STAGES| && done == FirstStages(k) && EndsAfter(names, k, tail, true);
      NoFailureInPairs(k);
    }
  }

  lemma {:induction false} NoFailureInPairs(k: nat)
    requires k <= |STAGES|
    ensures StageFailed(CopyTables) !in DonePairs(k)
  {
    if k > 0 {
      NoFailureInPairs(k - 1);
    }
  }

  /** What a whole queue sends: the plans, then the events of each run. */
  ghost function ScriptOf(plans: seq<SyncPlan>, records: seq<RunRecord>, contexts: seq<seq<bool>>): seq<Pump.Phase>
    requires Contexts(records, contexts)
  {
    if records == [] then [[PlanLane(plans)]]
    else
      var n := |records| - 1;
      ScriptOf(plans, records[..n], contexts[..n]) + [[RunLane(AttributedAll(records[n].trace, records[n].plan.database), contexts[n])]]
  }

  /** The contexts the events of these runs are sent under. */
  ghost predicate Contexts(records: seq<RunRecord>, contexts: seq<seq<bool>>) {
    && |contexts| == |records|
    && forall i :: 0 <= i < |records| ==>
         PoolContext(records[i].trace, AttributedAll(records[i].trace, records[i].plan.database), contexts[i])
  }

  lemma OneMoreContext(plans: seq<SyncPlan>, records: seq<RunRecord>, contexts: seq<seq<bool>>, record: RunRecord, cancelled: seq<bool>)
    requires Contexts(records, contexts)
    requires PoolContext(record.trace, AttributedAll(record.trace, record.plan.database), cancelled)
    ensures Contexts(records + [record], contexts + [cancelled])
    ensures ScriptOf(plans, records + [record], contexts + [cancelled])
         == ScriptOf(plans, records, contexts) + [[RunLane(AttributedAll(record.trace, record.plan.database), cancelled)]]
  {
    hide AttributedAll, PoolContext, RunLane;
    var more, all := records + [record], contexts + [cancelled];
    forall i | 0 <= i < |more| ensures PoolContext(more[i].trace, AttributedAll(more[i].trace, more[i].plan.database), all[i]) {
      if i < |records| {
        assert more[i] == records[i] && all[i] == contexts[i];
      }
    }
    assert more[..|records|] == records && all[..|records|] == contexts;
  }

  /** `screen` is a run of the hand-over with this script that has finished in `end`. */
  ghost predicate WentThrough(script: seq<Pump.Phase>, screen: seq<Pump.Action>, end: Pump.Pump) {
    && Pump.Exec(Pump.Start(script), screen) == Some(end) && Pump.Finished(end)
    && AllInScript(script, end.delivered) && AllInScript(script, end.buffer) && AllInScript(script, end.dropped)
  }

  /** The script goes through the channel to the screen. */
  method ShowOnScreen(script: seq<Pump.Phase>, ghost trace: seq<Event>, ghost results: seq<Tally>, ghost ok: bool, p: LiveProgress)
    returns (ghost screen: seq<Pump.Action>, end: Pump.Pump, ghost plansAt: seq<map<string, DBPlan>>, ghost shown: Option<nat>)
    requires p.Valid() && Tells(script, trace, results, ok)
    modifies p
    ensures p.Valid() && WentThrough(script, screen, end)
    ensures p.history == old(p.history) + Pump.EventsOf(script, end.delivered)
    ensures ScreenShows(old(p.queue).done, p.queue.done, Pump.EventsOf(script, end.buffer), Pump.EventsOf(script, end.dropped), results)
    ensures forall e :: e in Pump.EventsOf(script, end.dropped) ==> IsTableEvent(e)
    ensures ok ==> Pump.EventsOf(script, end.dropped) == []
    ensures ok ==> p.history + Pump.EventsOf(script, end.buffer) == old(p.history) + trace
    ensures ok ==> Plus(p.queue.done, DoneTally(Pump.EventsOf(script, end.buffer))) == Plus(old(p.queue).done, Sum(results))
    ensures Pump.PlansFollow(script, end.delivered, old(p.PlannedNow()), plansAt, shown, p.PlannedNow())
  {
    hide DoneTally, Sum, Plus, Tells, ScreenShows, LiveProgress.Valid, Pump.Inv, Pump.EventsOf, Pump.Exec, Pump.PlansFollow;
    ghost var before := p.history;
    CommittedIsDone(p);
    end, screen, plansAt, shown := Pump.RunSync(script, p);
    CommittedIsDone(p);
    ShownAndLeft(end);
    WhatIsShown(script, trace, results, ok, screen, end, before);
  }

  lemma CommittedIsDone(p: LiveProgress)
    requires p.Valid()
    ensures p.queue.done == DoneTally(p.history)
  {
    hide DoneTally;
  }

  lemma WhatIsShown(script: seq<Pump.Phase>, trace: seq<Event>, results: seq<Tally>, ok: bool,
                    run: seq<Pump.Action>, s: Pump.Pump, before: seq<Event>)
    requires Tells(script, trace, results, ok) && Pump.Exec(Pump.Start(script), run) == Some(s) && Pump.Finished(s)
    requires Pump.Inv(s) && s.script == script
    requires AllInScript(script, s.delivered) && AllInScript(script, s.buffer) && AllInScript(script, s.dropped)
    ensures var shown, left, givenUp := Pump.EventsOf(script, s.delivered), Pump.EventsOf(script, s.buffer), Pump.EventsOf(script, s.dropped);
      && ScreenShows(DoneTally(before), DoneTally(before + shown), left, givenUp, results)
      && (forall e :: e in givenUp ==> IsTableEvent(e))
      && (ok ==> givenUp == [] && before + shown + left == before + trace)
      && (ok ==> Plus(DoneTally(before + shown), DoneTally(left)) == Plus(DoneTally(before), Sum(results)))
  {
    hide DoneTally, Sum, Pump.Inv, Pump.Exec, Pump.EventsOf, ScriptTally, ScriptEvents, Cancelled, OneLaneEach, NoneCancelled;
    var shown, left, givenUp := Pump.EventsOf(script, s.delivered), Pump.EventsOf(script, s.buffer), Pump.EventsOf(script, s.dropped);
    NothingUnaccounted(script, run);
    DoneTallyConcat(before, shown);
    NoDoneIsZero(left);
    NoDoneIsZero(givenUp);
    GivenUpWereCancelled(s);
    if ok {
      NothingCancelled(script);
      SomeEvent(givenUp);
      assert DoneTally([]) == ZERO by { EmptySum(); }
      ShownInOrder(script, run);
      assert before + shown + left == before + (shown + left);
    }
  }

  lemma SomeEvent(events: seq<Event>)
    ensures events == [] || exists e :: e in events
  {
    if events != [] {
      assert events[0] in events;
    }
  }

  lemma NothingCancelled(script: seq<Pump.Phase>)
    requires NoneCancelled(script)
    ensures forall o :: !Cancelled(script, o)
  {
  }

  // ---------- the plans on the screen ----------

  predicate LastOf(plans: seq<SyncPlan>, k: nat) {
    k < |plans| && forall j :: k < j < |plans| ==> plans[j].database != plans[k].database
  }

  /** Every planned database is registered, with its tables and their rows and sizes added up. */
  ghost predicate KnowsPlans(registered: map<string, DBPlan>, plans: seq<SyncPlan>) {
    forall k: nat :: k < |plans| && LastOf(plans, k) ==>
      var tables := plans[k].tables;
      && plans[k].database in registered
      && registered[plans[k].database].tables == tables
      && registered[plans[k].database].rows == SumOf(seq(|tables|, i requires 0 <= i < |tables| => tables[i].rows))
      && registered[plans[k].database].bytes == SumOf(seq(|tables|, i requires 0 <= i < |tables| => tables[i].sizeBytes))
  }

  /** Whenever an event was handled, every plan was registered. */
  ghost predicate KnownBeforeEvents(script: seq<Pump.Phase>, delivered: seq<Pump.Origin>, plansAt: seq<map<string, DBPlan>>, plans: seq<SyncPlan>)
    requires |plansAt| == |delivered| && AllInScript(script, delivered)
  {
    forall i :: 0 <= i < |delivered| && Pump.SendAt(script, delivered[i]).msg.Progress? ==> KnowsPlans(plansAt[i], plans)
  }

  /** The database tier carries the totals of the plan of the database it shows. */
  ghost predicate ShowsPlan(db: Tier, database: string, plans: seq<SyncPlan>) {
    exists k: nat :: LastOf(plans, k) && plans[k].database == database && HasTotals(db, plans[k].tables)
  }

  ghost predicate HasTotals(db: Tier, tables: seq<Table>) {
    && db.tablesTotal == |tables|
    && db.bytesEstimated == SumOf(seq(|tables|, i requires 0 <= i < |tables| => tables[i].sizeBytes))
    && SumOf(seq(|tables|, i requires 0 <= i < |tables| => tables[i].rows)) <= db.rowsEstimated
  }

  lemma {:induction false} ScriptPlansFirst(plans: seq<SyncPlan>, records: seq<RunRecord>, contexts: seq<seq<bool>>)
    requires Contexts(records, contexts)
    ensures Pump.PlansFirst(ScriptOf(plans, records, contexts)) && ScriptOf(plans, records, contexts)[0] == [PlanLane(plans)]
  {
    hide AttributedAll;
    if records != [] {
      var n := |records| - 1;
      ScriptPlansFirst(plans, records[..n], contexts[..n]);
      OriginsOfMore(ScriptOf(plans, records[..n], contexts[..n]), RunLane(AttributedAll(records[n].trace, records[n].plan.database), contexts[n]));
    }
  }

  predicate IsPlanned(plans: seq<SyncPlan>, database: string) {
    exists k :: 0 <= k < |plans| && plans[k].database == database
  }

  /** Every event sent names one of the planned databases. */
  lemma {:induction false} EventNamesPlan(plans: seq<SyncPlan>, records: seq<RunRecord>, contexts: seq<seq<bool>>, o: Pump.Origin)
    requires Contexts(records, contexts) && |records| <= |plans| && forall i :: 0 <= i < |records| ==> IsRun(records[i]) && records[i].plan == plans[i]
    requires Pump.InScript(ScriptOf(plans, records, contexts), o) && Pump.SendAt(ScriptOf(plans, records, contexts), o).msg.Progress?
    ensures IsPlanned(plans, Pump.SendAt(ScriptOf(plans, records, contexts), o).msg.event.database)
  {
    hide AttributedAll, IsRun;
    if records != [] {
      var n := |records| - 1;
      var before := ScriptOf(plans, records[..n], contexts[..n]);
      var events := AttributedAll(records[n].trace, records[n].plan.database);
      OriginsOfMore(before, RunLane(events, contexts[n]));
      if o.phase < |before| {
        EventNamesPlan(plans, records[..n], contexts[..n], o);
      } else {
        RunNamesItsDatabase(records[n]);
        assert events[o.pos] in events;
      }
    }
  }

  /** With at most 256 databases every plan is registered before any event is handled. */
  lemma PlansKnown(plans: seq<SyncPlan>, script: seq<Pump.Phase>, screen: seq<Pump.Action>, end: Pump.Pump,
                   before: map<string, DBPlan>, plans': map<string, DBPlan>, i: nat)
    requires Pump.PlansFirst(script) && script[0] == [PlanLane(plans)] && |plans| <= 256
    requires Pump.Exec(Pump.Start(script), screen) == Some(end) && AllInScript(script, end.delivered)
    requires i < |end.delivered| && Pump.SendAt(script, end.delivered[i]).msg.Progress?
    requires Pump.Registered(script, end.delivered[..i], before, plans')
    ensures KnowsPlans(plans', plans)
  {
    hide Pump.Exec, Pump.PlansFirst, SumOf, Pump.Registered, Pump.IsLastPlan;
    Pump.PlansComeFirst(script, screen, i);
    var handled := end.delivered[..i];
    forall k: nat | k < |plans| && LastOf(plans, k)
      ensures var m := PlanMessage(plans[k]).msg; m.database in plans' && plans'[m.database] == DBPlan(m.tables, m.rows, m.bytes)
    {
      assert handled[k] == Pump.Origin(0, 0, k) && Pump.SendAt(script, handled[k]) == PlanMessage(plans[k]);
      LastIsLast(plans, script, handled, k);
      RegisteredAt(script, handled, before, plans', k);
    }
    forall k: nat | k < |plans| ensures PlanTotalsAre(plans[k]) {
      PlanSums(plans[k].tables);
    }
  }

  /** What a plan message says of rows and bytes. */
  ghost predicate PlanTotalsAre(plan: SyncPlan) {
    var tables, m := plan.tables, PlanMessage(plan).msg;
    && m.database == plan.database && m.tables == tables
    && m.rows == SumOf(seq(|tables|, i requires 0 <= i < |tables| => tables[i].rows))
    && m.bytes == SumOf(seq(|tables|, i requires 0 <= i < |tables| => tables[i].sizeBytes))
  }

  lemma RegisteredAt(script: seq<Pump.Phase>, origins: seq<Pump.Origin>, before: map<string, DBPlan>, registered: map<string, DBPlan>, k: nat)
    requires AllInScript(script, origins) && Pump.Registered(script, origins, before, registered) && k < |origins| && Pump.IsLastPlan(script, origins, k)
    ensures var m := Pump.SendAt(script, origins[k]).msg;
            m.PlanReady? && m.database in registered && registered[m.database] == DBPlan(m.tables, m.rows, m.bytes)
  {
  }

  lemma LastIsLast(plans: seq<SyncPlan>, script: seq<Pump.Phase>, handled: seq<Pump.Origin>, k: nat)
    requires LastOf(plans, k) && |plans| <= |handled| && AllInScript(script, handled) && script != [] && script[0] == [PlanLane(plans)]
    requires forall j :: 0 <= j < |plans| ==> handled[j] == Pump.Origin(0, 0, j)
    requires forall j :: |plans| <= j < |handled| ==> Pump.SendAt(script, handled[j]).msg.Progress?
    ensures Pump.IsLastPlan(script, handled, k)
  {
    forall j | 0 <= j < |plans| ensures Pump.SendAt(script, handled[j]) == PlanMessage(plans[j]) {
    }
  }

  lemma {:induction false} LastNamed(plans: seq<SyncPlan>, k: nat) returns (last: nat)
    requires k < |plans|
    ensures LastOf(plans, last) && plans[last].database == plans[k].database
    decreases |plans| - k
  {
    if LastOf(plans, k) {
      last := k;
    } else {
      var j: nat :| k < j < |plans| && plans[j].database == plans[k].database;
      last := LastNamed(plans, j);
    }
  }

  /** A screen that moved on to a database shows that database's plan. */
  lemma PlanOnScreen(plans: seq<SyncPlan>, script: seq<Pump.Phase>, delivered: seq<Pump.Origin>, before: Planned,
                     plansAt: seq<map<string, DBPlan>>, shown: Option<nat>, now: Planned)
    requires AllInScript(script, delivered) && |plansAt| == |delivered| && Pump.ShownSince(script, delivered, before, plansAt, shown, now)
    requires forall o :: Pump.InScript(script, o) && Pump.SendAt(script, o).msg.Progress? ==>
               IsPlanned(plans, Pump.SendAt(script, o).msg.event.database)
    requires forall i :: 0 <= i < |delivered| && Pump.SendAt(script, delivered[i]).msg.Progress? ==> KnowsPlans(plansAt[i], plans)
    requires now.database != before.database
    ensures ShowsPlan(now.db, now.database, plans)
  {
    hide SumOf;
    var i := shown.value;
    var k: nat :| k < |plans| && plans[k].database == Pump.SendAt(script, delivered[i]).msg.event.database;
    var last := LastNamed(plans, k);
    assert KnowsPlans(plansAt[i], plans);
    assert HasTotals(now.db, plans[last].tables);
  }

  lemma NothingSentYet(plans: seq<SyncPlan>, fails: nat -> Call -> bool)
    ensures AreRuns([], plans, fails, [], true) && TracesOf([]) == [] && Contexts([], []) && ScriptOf(plans, [], []) == [[PlanLane(plans)]]
    ensures Tells([[PlanLane(plans)]], [], [], true)
  {
    hide Tells, PlanLane;
    NoRuns(plans, fails);
    PlansTellNothing(plans);
  }

  /** One run, and what its observer sends. */
  method SyncOne(plan: SyncPlan, fails: Call -> bool)
    returns (ok: bool, total: Tally, events: seq<Event>, cancelled: seq<bool>, ghost record: RunRecord)
    ensures IsRun(record) && record.plan == plan && record.fails == fails && record.ok == ok && record.copied == total
    ensures events == AttributedAll(record.trace, plan.database) && |cancelled| == |events| && PoolContext(record.trace, events, cancelled)
    ensures total.tables == DoneTally(events).tables && (ok ==> total == DoneTally(events) && StageFailed(CopyTables) !in Skeleton(record.trace))
    ensures ok && !plan.dryRun ==> total.tables == |plan.tables|
  {
    hide DoneTally, AttributedAll, RunGrammar, TableEventsInCopy, LedgersBalanced, ShowsCopies, EachCopied, EachClosed, Skeleton, TroubleIn, PoolRanIn, PoolContext;
    var run := new ExecutionRun(plan, fails);
    ok := run.Execute();
    total, record := run.copied, run.Outcome(ok);
    events := AttributedAll(run.trace, plan.database);
    cancelled := SendContexts(run.trace, events);
    AttributionKeepsTally(run.trace, plan.database);
    if ok {
      NoStageFailed(Skeleton(run.trace), run.stages, plan.dryRun);
    }
  }

  /** A queue of databases, synced and sent to the screen under any scheduler; a failed run ends the
      queue. Tables are accounted for whatever fails; with every run successful nothing is given up,
      the events shown and left are the whole trace in order, and so are their rows and bytes. */
  method SyncOnScreen(plans: seq<SyncPlan>, fails: nat -> Call -> bool, p: LiveProgress)
    returns (ok: bool, results: seq<Tally>, ghost records: seq<RunRecord>, ghost contexts: seq<seq<bool>>,
             ghost screen: seq<Pump.Action>, end: Pump.Pump, ghost plansAt: seq<map<string, DBPlan>>, ghost shown: Option<nat>)
    requires p.Valid()
    modifies p
    // The results are those of runs of the plans, and what these send went through the channel.
    ensures AreRuns(records, plans, fails, results, ok) && (ok ==> |results| == |plans|)
    ensures Contexts(records, contexts) && WentThrough(ScriptOf(plans, records, contexts), screen, end)
    // The dashboard has exactly the events the screen was handed.
    ensures p.Valid() && p.history == old(p.history) + Pump.EventsOf(ScriptOf(plans, records, contexts), end.delivered)
    // With what was left in the channel and what was given up it accounts for the results.
    ensures var script := ScriptOf(plans, records, contexts);
      && ScreenShows(old(p.queue).done, p.queue.done, Pump.EventsOf(script, end.buffer), Pump.EventsOf(script, end.dropped), results)
      && (forall e :: e in Pump.EventsOf(script, end.dropped) ==> IsTableEvent(e))
    // A successful queue gives up nothing, shows its events in order, and every number adds up.
    ensures ok ==> var script := ScriptOf(plans, records, contexts);
      && Pump.EventsOf(script, end.dropped) == []
      && p.history + Pump.EventsOf(script, end.buffer) == old(p.history) + TracesOf(records)
      && Plus(p.queue.done, DoneTally(Pump.EventsOf(script, end.buffer))) == Plus(old(p.queue).done, Sum(results))
    ensures ok ==> forall i :: 0 <= i < |plans| && !plans[i].dryRun ==> results[i].tables == |plans[i].tables|
    // Every plan handed over is registered; with at most 256 databases all of them are before the first
    // event is handled, so that a database that comes up shows the totals of its plan.
    ensures Pump.PlansFollow(ScriptOf(plans, records, contexts), end.delivered, old(p.PlannedNow()), plansAt, shown, p.PlannedNow())
    ensures |plans| <= 256 ==> KnownBeforeEvents(ScriptOf(plans, records, contexts), end.delivered, plansAt, plans)
    ensures |plans| <= 256 && p.currentDatabase != old(p.currentDatabase) ==> ShowsPlan(p.db, p.currentDatabase, plans)
  {
    hide DoneTally, Sum, Plus, AttributedAll, Pump.PlansFollow, KnowsPlans, ShowsPlan, Pump.Exec, Pump.InScript, IsRun, AreRuns, Contexts, ScriptOf, TracesOf, WentThrough,
         RunLane, PoolContext, Tells, ScreenShows, LiveProgress.Valid, Pump.EventsOf;
    results, ok, records, contexts := [], true, [], [];
    var script := [[PlanLane(plans)]];
    NothingSentYet(plans, fails);
    for i := 0 to |plans|
      invariant ok && |results| == |records| == i && AreRuns(records, plans, fails, results, true)
      invariant Contexts(records, contexts) && script == ScriptOf(plans, records, contexts)
      invariant Tells(script, TracesOf(records), results, true)
      invariant forall j :: 0 <= j < i && !plans[j].dryRun ==> results[j].tables == |plans[j].tables|
      invariant p.Valid() && p.history == old(p.history) && p.queue == old(p.queue) && p.PlannedNow() == old(p.PlannedNow())
    {
      ghost var record;
      var events, cancelled, total;
      ok, total, events, cancelled, record := SyncOne(plans[i], fails(i));
      RunTells(script, TracesOf(records), results, record.trace, events, cancelled, total, ok);
      OneMoreRun(records, plans, fails, results, record);
      OneMoreContext(plans, records, contexts, record, cancelled);
      TracesAppend(records, record);
      script, results := script + [[RunLane(events, cancelled)]], results + [total];
      records, contexts := records + [record], contexts + [cancelled];
      if !ok {
        break;
      }
    }
    screen, end, plansAt, shown := ShowOnScreen(script, TracesOf(records), results, ok, p);
    PlansOfSync(plans, fails, results, ok, records, contexts, screen, end, old(p.PlannedNow()), plansAt, shown, p.PlannedNow());
  }

  lemma PlansOfSync(plans: seq<SyncPlan>, fails: nat -> Call -> bool, results: seq<Tally>, ok: bool, records: seq<RunRecord>, contexts: seq<seq<bool>>,
                    screen: seq<Pump.Action>, end: Pump.Pump, before: Planned, plansAt: seq<map<string, DBPlan>>, shown: Option<nat>, now: Planned)
    requires AreRuns(records, plans, fails, results, ok) && Contexts(records, contexts) && WentThrough(ScriptOf(plans, records, contexts), screen, end)
    requires Pump.PlansFollow(ScriptOf(plans, records, contexts), end.delivered, before, plansAt, shown, now)
    ensures |plansAt| == |end.delivered|
    ensures |plans| <= 256 ==> KnownBeforeEvents(ScriptOf(plans, records, contexts), end.delivered, plansAt, plans)
    ensures |plans| <= 256 && now.database != before.database ==> ShowsPlan(now.db, now.database, plans)
  {
    hide IsRun, Contexts, ScriptOf, Pump.Exec, Pump.Registered, Pump.ShownSince, KnowsPlans, ShowsPlan, Pump.InScript, Pump.PlansFirst, PlanLane, SumOf;
    var script := ScriptOf(plans, records, contexts);
    ScriptPlansFirst(plans, records, contexts);
    forall o | Pump.InScript(script, o) && Pump.SendAt(script, o).msg.Progress? ensures IsPlanned(plans, Pump.SendAt(script, o).msg.event.database) {
      EventNamesPlan(plans, records, contexts, o);
    }
    if |plans| <= 256 {
      forall i | 0 <= i < |end.delivered| && Pump.SendAt(script, end.delivered[i]).msg.Progress? ensures KnowsPlans(plansAt[i], plans) {
        PlansKnown(plans, script, screen, end, before.dbPlans, plansAt[i], i);
      }
      if now.database != before.database {
        PlanOnScreen(plans, script, end.delivered, before, plansAt, shown, now);
      }
    }
  }

  function FirstTableShown(a: Table, b: Table, database: string, bytes: nat, rows: nat): seq<Event> {
    AttributedAll(TableEvents([a, b], Pool.FirstCopy(bytes, rows)), database)
  }

  /** Two tables on two workers: the second fails when the first has just been copied. The pool's result
      counts the first table, whose done event goes out under the cancelled context; some run of the
      screen empties the channel and still shows fewer tables than the result. */
  lemma CountedButNeverShown(a: Table, b: Table, database: string, p: nat, q: nat, bytes: nat, rows: nat)
    requires p > 0 && Pool.Quotable(a)
    ensures Pool.RunEnds(Pool.Start([a, b], [p, q], 2, false), Pool.TwoTableRun(bytes, rows),
                         Pool.Call(Tally(1, rows, bytes), true, false, Pool.FirstCopy(bytes, rows), 2, [Pool.BOTH_CLOSED, Pool.UNOPENED]))
    ensures exists screen :: FallsShort([[RunLane(FirstTableShown(a, b, database, bytes, rows), [false, false, true])]], screen)
  {
    hide Pool.Exec, FallsShort, Pool.Quotable, Sum;
    Pool.DoneUnderCancelledContext(a, b, p, q, bytes, rows);
    var script := [[RunLane(FirstTableShown(a, b, database, bytes, rows), [false, false, true])]];
    assert Cancelled(script, Pump.Origin(0, 0, 2)) && IsDone(Pump.SendAt(script, Pump.Origin(0, 0, 2)));
    ShortWhenDoneIsCancelled(script);
  }
}
