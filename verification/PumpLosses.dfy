/** What the screen can miss of a sync (tui/app.go): which scripts have a run that leaves a message in
    the channel, and which have one that gives a message up. */
module PumpLosses {
  import opened Models
  import opened MessagePump
  import opened PumpAccounts

  /** A progress message whose context is live when it is sent. */
  ghost predicate Live(script: seq<Phase>, o: Origin) {
    InScript(script, o) && SendAt(script, o).msg.Progress? && !SendAt(script, o).cancelled
  }

  /** A progress message whose context is cancelled by then. */
  ghost predicate Cancelled(script: seq<Phase>, o: Origin) {
    InScript(script, o) && SendAt(script, o).msg.Progress? && SendAt(script, o).cancelled
  }

  // ---------- building runs ----------

  ghost predicate Leads(s: Pump, t: Pump)
    requires Placed(s)
  {
    exists run :: Exec(s, run) == Some(t)
  }

  lemma LeadsToItself(s: Pump)
    requires Placed(s)
    ensures Leads(s, s)
  {
    ExecNone(s);
  }

  lemma LeadsOn(s: Pump, a: Action, t: Pump)
    requires Placed(s) && Enabled(s, a) && Placed(Next(s, a)) && Leads(Next(s, a), t)
    ensures Leads(s, t)
  {
    hide Enabled, Next, Exec;
    var run :| Exec(Next(s, a), run) == Some(t);
    ExecStep(s, a, run);
  }

  /** The screen waits and the goroutine is still sending. */
  ghost predicate Quiet(s: Pump) {
    Inv(s) && s.started && s.selecting == 1 && s.inbox == [] && !s.closed && s.done.Unsent?
  }

  /** A step of the senders keeps the screen waiting. */
  lemma QuietNext(s: Pump, a: Action)
    requires Quiet(s) && Placed(s) && Enabled(s, a) && (a.Accept? || a.Drop? || a.NextPhase?)
    ensures Quiet(Next(s, a)) && Placed(Next(s, a)) && Next(s, a).script == s.script && WorkLeft(Next(s, a)) < WorkLeft(s)
  {
    hide Inv, WorkLeft;
    InvNext(s, a);
    WorkDecreases(s, a);
    PlacedNext(s, a);
  }

  /** A message is sent, received and handled at once. */
  lemma ShowsAtOnce(s: Pump, l: nat) returns (t: Pump)
    requires Quiet(s) && Placed(s) && s.buffer == [] && HasSend(s, l)
    ensures Quiet(t) && Placed(t) && t.buffer == [] && WorkLeft(t) < WorkLeft(s)
    ensures t.script == s.script && t.phase == s.phase && t.cursors == Advance(s, l).cursors && t.dropped == s.dropped
    ensures forall u :: Leads(t, u) ==> Leads(s, u)
  {
    hide Inv, WorkLeft, Leads;
    var s1 := Next(s, Accept(l));
    QuietNext(s, Accept(l));
    var s2 := Next(s1, ReceiveEvent);
    InvNext(s1, ReceiveEvent);
    WorkDecreases(s1, ReceiveEvent);
    PlacedNext(s1, ReceiveEvent);
    t := Next(s2, Update);
    InvNext(s2, Update);
    WorkDecreases(s2, Update);
    PlacedNext(s2, Update);
    forall u | Leads(t, u) ensures Leads(s, u) {
      LeadsOn(s2, Update, u);
      LeadsOn(s1, ReceiveEvent, u);
      LeadsOn(s, Accept(l), u);
    }
  }

  /** The goroutine is through: the wait takes the finish, whatever is in the channel. */
  lemma FinishesNow(s: Pump) returns (t: Pump)
    requires Quiet(s) && Placed(s) && s.phase == |s.script|
    ensures Leads(s, t) && Finished(t) && t.script == s.script && t.buffer == s.buffer && t.dropped == s.dropped
  {
    hide Inv, Leads;
    var s1 := Next(s, SendDone);
    var s2 := Next(s1, ReceiveDone);
    var s3 := Next(s2, Update);
    t := Next(s3, CloseEvents);
    PlacedNext(s, SendDone);
    PlacedNext(s1, ReceiveDone);
    PlacedNext(s2, Update);
    PlacedNext(s3, CloseEvents);
    NoFinishYet(s);
    LeadsToItself(t);
    LeadsOn(s3, CloseEvents, t);
    LeadsOn(s2, Update, t);
    LeadsOn(s1, ReceiveDone, t);
    LeadsOn(s, SendDone, t);
  }

  lemma NoFinishYet(s: Pump)
    requires Quiet(s)
    ensures s.finishes == 0
  {
  }

  /** The next send of some lane, while the phase is not over. */
  lemma SomeLane(s: Pump) returns (l: nat, o: Origin)
    requires Placed(s) && s.phase < |s.script| && !PhaseOver(s)
    ensures HasSend(s, l) && o == Origin(s.phase, l, s.cursors[l])
    ensures InScript(s.script, o) && !Passed(s, o) && SendAt(s.script, o) == Head(s, l)
  {
    l :| l < |s.cursors| && HasSend(s, l);
    o := Origin(s.phase, l, s.cursors[l]);
  }

  /** What is passed after one send of lane `l`, in any state that has got as far. */
  lemma PassedAfter(s: Pump, l: nat, t: Pump, o: Origin)
    requires Placed(s) && HasSend(s, l) && Placed(t)
    requires t.script == s.script && t.phase == s.phase && t.cursors == Advance(s, l).cursors
    ensures Passed(t, o) <==> Passed(s, o) || o == Origin(s.phase, l, s.cursors[l])
  {
    PassedAdvance(s, l, o);
  }

  // ---------- left in the channel ----------

  ghost predicate LiveLeft(s: Pump)
    requires Placed(s)
  {
    exists o :: Live(s.script, o) && !Passed(s, o)
  }

  lemma NoLiveAfter(s: Pump, l: nat, t: Pump)
    requires Placed(s) && HasSend(s, l) && Placed(t)
    requires t.script == s.script && t.phase == s.phase && t.cursors == Advance(s, l).cursors
    ensures LiveLeft(t) ==> LiveLeft(s)
    ensures LiveLeft(s) ==> LiveLeft(t) || Live(s.script, Origin(s.phase, l, s.cursors[l]))
  {
    hide Live, Passed;
    forall o ensures Passed(t, o) <==> Passed(s, o) || o == Origin(s.phase, l, s.cursors[l]) {
      PassedAfter(s, l, t, o);
    }
  }

  lemma SameLiveLeft(s: Pump)
    requires Placed(s) && PhaseOver(s)
    ensures Placed(Next(s, NextPhase)) && (LiveLeft(Next(s, NextPhase)) <==> LiveLeft(s))
  {
    hide Live;
    PlacedNext(s, NextPhase);
    forall o ensures Passed(Next(s, NextPhase), o) <==> Passed(s, o) {
      PassedNextPhase(s, o);
    }
  }

  lemma AllPassedAtEnd(s: Pump)
    requires Placed(s) && s.phase == |s.script|
    ensures forall o :: InScript(s.script, o) ==> Passed(s, o)
  {
  }

  /** With no live progress message to come nothing has to be read any more: plans are accepted or
      dropped, cancelled sends given up. What is in the channel stays there. */
  lemma HoldsOn(s: Pump) returns (t: Pump)
    requires Quiet(s) && Placed(s) && !LiveLeft(s)
    ensures Leads(s, t) && Finished(t) && t.script == s.script && s.buffer <= t.buffer
    decreases WorkLeft(s)
  {
    hide Inv, WorkLeft, Leads, LiveLeft;
    if s.phase == |s.script| {
      t := FinishesNow(s);
    } else if PhaseOver(s) {
      QuietNext(s, NextPhase);
      SameLiveLeft(s);
      t := HoldsOn(Next(s, NextPhase));
      LeadsOn(s, NextPhase, t);
    } else {
      var l, o := SomeLane(s);
      assert !Live(s.script, o) by { NotLive(s, o); }
      var a := if Head(s, l).msg.PlanReady? && |s.buffer| < CAPACITY then Accept(l) else Drop(l);
      QuietNext(s, a);
      NoLiveAfter(s, l, Next(s, a));
      t := HoldsOn(Next(s, a));
      LeadsOn(s, a, t);
    }
  }

  lemma NotLive(s: Pump, o: Origin)
    requires Placed(s) && !LiveLeft(s) && !Passed(s, o)
    ensures !Live(s.script, o)
  {
  }

  /** Everything is shown at once up to the last live progress message, which is left in the channel. */
  lemma LeavesLast(s: Pump) returns (t: Pump, left: Origin)
    requires Quiet(s) && Placed(s) && s.buffer == [] && LiveLeft(s)
    ensures Leads(s, t) && Finished(t) && t.script == s.script && left in t.buffer && Live(s.script, left)
    decreases WorkLeft(s)
  {
    hide Inv, WorkLeft, Leads, LiveLeft;
    if s.phase == |s.script| {
      AllPassedAtEnd(s);
      NoneLeft(s);
      assert false;
    } else if PhaseOver(s) {
      QuietNext(s, NextPhase);
      SameLiveLeft(s);
      t, left := LeavesLast(Next(s, NextPhase));
      LeadsOn(s, NextPhase, t);
    } else {
      var l, o := SomeLane(s);
      var held := Next(s, Accept(l));
      QuietNext(s, Accept(l));
      NoLiveAfter(s, l, held);
      if Live(s.script, o) && !LiveLeft(held) {
        t := HoldsOn(held);
        left := o;
        LeadsOn(s, Accept(l), t);
        assert held.buffer == [o] && o == t.buffer[0];
      } else {
        var shown := ShowsAtOnce(s, l);
        AsFar(held, shown);
        t, left := LeavesLast(shown);
      }
    }
  }

  lemma AsFar(s: Pump, t: Pump)
    requires Placed(s) && t.script == s.script && t.phase == s.phase && t.cursors == s.cursors
    ensures Placed(t) && (LiveLeft(t) <==> LiveLeft(s))
  {
    hide Live;
    forall o ensures Passed(t, o) <==> Passed(s, o) {}
  }

  lemma NoneLeft(s: Pump)
    requires Placed(s) && forall o :: InScript(s.script, o) ==> Passed(s, o)
    ensures !LiveLeft(s)
  {
  }

  lemma Begins(script: seq<Phase>) returns (s: Pump)
    ensures Placed(Start(script)) && Quiet(s) && Placed(s) && s.script == script && s.buffer == [] && s.dropped == []
    ensures forall o :: !Passed(s, o)
    ensures forall t :: Leads(s, t) ==> Leads(Start(script), t)
  {
    hide Inv, Leads;
    InvStart(script);
    s := Next(Start(script), StartScreen);
    InvNext(Start(script), StartScreen);
    PlacedNext(Start(script), StartScreen);
    forall t | Leads(s, t) ensures Leads(Start(script), t) {
      LeadsOn(Start(script), StartScreen, t);
    }
  }

  /** This run ends with a live progress message accepted but never shown. */
  ghost predicate Loses(script: seq<Phase>, run: seq<Action>) {
    Exec(Start(script), run).Some? &&
    var t := Exec(Start(script), run).value;
    Finished(t) && exists o :: Live(script, o) && o in t.accepted && o !in t.delivered
  }

  /** Any script with a live progress message has a run that loses one, even though the channel took it:
      the wait picks the finish while the message still lies there. */
  lemma MessageMayBeLost(script: seq<Phase>)
    ensures (exists run :: Loses(script, run)) <==> exists o :: Live(script, o)
  {
    hide Live;
    if o :| Live(script, o) {
      var s := Begins(script);
      assert LiveLeft(s);
      var t, left := LeavesLast(s);
      assert Leads(Start(script), t);
      var run :| Exec(Start(script), run) == Some(t);
      InvStart(script);
      EveryRun(Start(script), run);
      LeftIsNotShown(t, left);
      assert Loses(script, run);
    }
  }

  lemma LeftIsNotShown(t: Pump, o: Origin)
    requires Inv(t) && Finished(t) && o in t.buffer
    ensures o in t.accepted && o !in t.delivered
  {
    assert t.inbox == [] && t.accepted == t.delivered + t.buffer;
    var j :| 0 <= j < |t.buffer| && t.buffer[j] == o;
    assert t.accepted[|t.delivered| + j] == o;
    forall i | 0 <= i < |t.delivered| ensures t.delivered[i] != o {
      assert t.accepted[i] == t.delivered[i] && MayPrecede(t.accepted[i], t.accepted[|t.delivered| + j]);
    }
  }

  // ---------- given up ----------

  /** Everything with a live context is shown at once, everything cancelled is given up. */
  lemma GivesUpCancelled(s: Pump) returns (t: Pump)
    requires Quiet(s) && Placed(s) && s.buffer == []
    ensures Leads(s, t) && Finished(t) && t.script == s.script && t.buffer == [] && s.dropped <= t.dropped
    ensures forall o :: Cancelled(s.script, o) ==> Passed(s, o) || o in t.dropped
    decreases WorkLeft(s)
  {
    hide Inv, WorkLeft, Leads;
    if s.phase == |s.script| {
      AllPassedAtEnd(s);
      t := FinishesNow(s);
    } else if PhaseOver(s) {
      QuietNext(s, NextPhase);
      t := GivesUpCancelled(Next(s, NextPhase));
      LeadsOn(s, NextPhase, t);
      forall o ensures Passed(Next(s, NextPhase), o) <==> Passed(s, o) {
        PassedNextPhase(s, o);
      }
    } else {
      t := GivesUpNext(s);
    }
  }

  lemma GivesUpNext(s: Pump) returns (t: Pump)
    requires Quiet(s) && Placed(s) && s.buffer == [] && s.phase < |s.script| && !PhaseOver(s)
    ensures Leads(s, t) && Finished(t) && t.script == s.script && t.buffer == [] && s.dropped <= t.dropped
    ensures forall o :: Cancelled(s.script, o) ==> Passed(s, o) || o in t.dropped
    decreases WorkLeft(s), 0
  {
    hide Inv, WorkLeft, Leads, Enabled;
    var l, now := SomeLane(s);
    var next;
    if Head(s, l).msg.Progress? && Head(s, l).cancelled {
      assert Enabled(s, Drop(l)) by { DropIsEnabled(s, l); }
      next := Next(s, Drop(l));
      QuietNext(s, Drop(l));
      t := GivesUpCancelled(next);
      LeadsOn(s, Drop(l), t);
      assert next.dropped[|s.dropped|] == now && now == t.dropped[|s.dropped|];
    } else {
      next := ShowsAtOnce(s, l);
      t := GivesUpCancelled(next);
      assert !Cancelled(s.script, now);
    }
    forall o | Cancelled(s.script, o) ensures Passed(s, o) || o in t.dropped {
      PassedAfter(s, l, next, o);
    }
  }

  lemma DropIsEnabled(s: Pump, l: nat)
    requires Placed(s) && HasSend(s, l) && Head(s, l).msg.Progress? && Head(s, l).cancelled
    ensures Enabled(s, Drop(l))
  {
  }

  predicate IsDone(m: Send) {
    m.msg.Progress? && m.msg.event.name.TableCopyDone?
  }

  /** Tables are reported exactly by done events. */
  lemma {:induction false} ReportedTables(script: seq<Phase>, origins: seq<Origin>)
    requires AllInScript(script, origins)
    ensures Reported(script, origins).tables > 0 <==> exists i :: 0 <= i < |origins| && IsDone(SendAt(script, origins[i]))
  {
    hide Reported, IsDone;
    if origins == [] {
      NothingReported(script);
    } else {
      var init, last := origins[..|origins| - 1], origins[|origins| - 1];
      ReportedTables(script, init);
      ReportedAppend(script, init, last);
      assert init + [last] == origins;
      OneReported(SendAt(script, last));
      assert forall i :: 0 <= i < |init| ==> init[i] == origins[i];
    }
  }

  lemma OneReported(m: Send)
    ensures SendTally(m).tables == if IsDone(m) then 1 else 0
  {
  }

  /** The screen shows fewer tables than were reported, although the channel is empty. */
  ghost predicate FallsShort(script: seq<Phase>, run: seq<Action>) {
    Exec(Start(script), run).Some? &&
    var t := Exec(Start(script), run).value;
    && Finished(t) && t.buffer == [] && AllInScript(script, t.delivered)
    && Reported(script, t.delivered).tables < ScriptTally(script).tables
  }

  /** A screen that has emptied the channel can still fall short of the result: exactly when some done
      event was sent under a cancelled context. */
  lemma ShortWhenDoneIsCancelled(script: seq<Phase>)
    ensures (exists run :: FallsShort(script, run)) <==> exists o :: Cancelled(script, o) && IsDone(SendAt(script, o))
  {
    hide ScriptTally, Reported, IsDone;
    if run :| FallsShort(script, run) {
      var t := Exec(Start(script), run).value;
      var o := DoneGivenUp(script, run, t);
    }
    if o :| Cancelled(script, o) && IsDone(SendAt(script, o)) {
      var s := Begins(script);
      var t := GivesUpCancelled(s);
      assert Leads(Start(script), t);
      var run :| Exec(Start(script), run) == Some(t);
      DoneGivenUpFallsShort(script, run, t, o);
    }
  }

  lemma DoneGivenUp(script: seq<Phase>, run: seq<Action>, t: Pump) returns (o: Origin)
    requires FallsShort(script, run) && t == Exec(Start(script), run).value
    ensures Cancelled(script, o) && IsDone(SendAt(script, o))
  {
    hide ScriptTally, Reported, Exec;
    NothingUnaccounted(script, run);
    NothingReported(script);
    ReportedTables(script, t.dropped);
    InvStart(script);
    EveryRun(Start(script), run);
    var i :| 0 <= i < |t.dropped| && IsDone(SendAt(script, t.dropped[i]));
    o := t.dropped[i];
    assert o in t.dropped;
  }

  lemma DoneGivenUpFallsShort(script: seq<Phase>, run: seq<Action>, t: Pump, o: Origin)
    requires Exec(Start(script), run) == Some(t) && Finished(t) && t.buffer == []
    requires o in t.dropped && InScript(script, o) && IsDone(SendAt(script, o))
    ensures FallsShort(script, run)
  {
    hide ScriptTally, Reported, Exec;
    NothingUnaccounted(script, run);
    ReportedTables(script, t.dropped);
    var i :| 0 <= i < |t.dropped| && t.dropped[i] == o;
    assert IsDone(SendAt(script, t.dropped[i]));
  }
}
