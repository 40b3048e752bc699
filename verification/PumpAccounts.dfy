/** Where the messages of a sync end up (tui/app.go): every one that was sent is shown, left in the
    channel or given up, and which of these can happen. */
module PumpAccounts {
  import opened Tallies
  import opened Events
  import opened Dashboard
  import opened MessagePump

  // ---------- what is sent ----------

  function SendTally(m: Send): Tally {
    match m.msg
    case Progress(e) => DoneTallyOf(e)
    case PlanReady(_, _, _, _) => ZERO
  }

  function LaneTally(lane: seq<Send>): Tally {
    Sum(seq(|lane|, i requires 0 <= i < |lane| => SendTally(lane[i])))
  }

  function LaneTallies(lanes: Phase): seq<Tally> {
    seq(|lanes|, l requires 0 <= l < |lanes| => LaneTally(lanes[l]))
  }

  /** Tables, rows and bytes that a whole script reports as done. */
  function ScriptTally(script: seq<Phase>): Tally {
    if script == [] then ZERO
    else Plus(ScriptTally(script[..|script| - 1]), Sum(LaneTallies(script[|script| - 1])))
  }

  /** The part of a phase that is sent. */
  function SentPart(lanes: Phase, cursors: seq<nat>): Phase
    requires |cursors| == |lanes| && forall l :: 0 <= l < |cursors| ==> cursors[l] <= |lanes[l]|
  {
    seq(|lanes|, l requires 0 <= l < |lanes| => lanes[l][..cursors[l]])
  }

  /** The part of the script that is sent. */
  function SentScript(s: Pump): seq<Phase>
    requires Placed(s)
  {
    if s.phase < |s.script| then s.script[..s.phase] + [SentPart(s.script[s.phase], s.cursors)] else s.script
  }

  lemma ScriptTallyAppend(script: seq<Phase>, lanes: Phase)
    ensures ScriptTally(script + [lanes]) == Plus(ScriptTally(script), Sum(LaneTallies(lanes)))
  {
    assert (script + [lanes])[..|script|] == script;
  }

  lemma LaneTallyAppend(lane: seq<Send>, m: Send)
    ensures LaneTally(lane + [m]) == Plus(LaneTally(lane), SendTally(m))
  {
    hide Sum, Plus, SendTally;
    var xs := seq(|lane|, i requires 0 <= i < |lane| => SendTally(lane[i]));
    assert seq(|lane + [m]|, i requires 0 <= i < |lane + [m]| => SendTally((lane + [m])[i])) == xs + [SendTally(m)];
    SumAppend(xs, SendTally(m));
  }

  /** One more send of a lane counts once. */
  lemma SentOneMore(lanes: Phase, cursors: seq<nat>, l: nat)
    requires |cursors| == |lanes| && forall k :: 0 <= k < |cursors| ==> cursors[k] <= |lanes[k]|
    requires l < |lanes| && cursors[l] < |lanes[l]|
    ensures Sum(LaneTallies(SentPart(lanes, cursors[l := cursors[l] + 1]))) ==
              Plus(Sum(LaneTallies(SentPart(lanes, cursors))), SendTally(lanes[l][cursors[l]]))
  {
    hide Sum, SendTally, LaneTally;
    var c := cursors[l];
    var before := LaneTallies(SentPart(lanes, cursors));
    assert lanes[l][..c + 1] == lanes[l][..c] + [lanes[l][c]];
    LaneTallyAppend(lanes[l][..c], lanes[l][c]);
    assert LaneTallies(SentPart(lanes, cursors[l := c + 1])) == before[l := LaneTally(lanes[l][..c + 1])];
    SumUpdate(before, l, LaneTally(lanes[l][..c + 1]));
  }

  lemma NothingSent(lanes: Phase, cursors: seq<nat>)
    requires |cursors| == |lanes| && forall l :: 0 <= l < |cursors| ==> cursors[l] == 0
    ensures Sum(LaneTallies(SentPart(lanes, cursors))) == ZERO
  {
    hide Sum, SendTally;
    forall l | 0 <= l < |lanes| ensures LaneTally(lanes[l][..0]) == ZERO {
      EmptyLane(lanes[l][..0]);
    }
    assert LaneTallies(SentPart(lanes, cursors)) == seq(|lanes|, _ => ZERO);
    SumZeros(|lanes|);
  }

  lemma EmptyLane(lane: seq<Send>)
    requires lane == []
    ensures LaneTally(lane) == ZERO
  {
  }

  /** A phase that is over was sent whole. */
  lemma SentWhole(s: Pump)
    requires Placed(s) && PhaseOver(s)
    ensures SentPart(s.script[s.phase], s.cursors) == s.script[s.phase]
  {
    forall l | 0 <= l < |s.cursors| ensures s.script[s.phase][l][..s.cursors[l]] == s.script[s.phase][l] {
      assert !HasSend(s, l);
    }
  }

  // ---------- conservation ----------

  ghost predicate AllInScript(script: seq<Phase>, origins: seq<Origin>) {
    forall i :: 0 <= i < |origins| ==> InScript(script, origins[i])
  }

  function Reported(script: seq<Phase>, origins: seq<Origin>): Tally
    requires AllInScript(script, origins)
  {
    DoneTally(EventsOf(script, origins))
  }

  ghost predicate Accounted(s: Pump) {
    && Placed(s) && AllInScript(s.script, s.accepted) && AllInScript(s.script, s.dropped)
    && Plus(Reported(s.script, s.accepted), Reported(s.script, s.dropped)) == ScriptTally(SentScript(s))
  }

  lemma ReportedAppend(script: seq<Phase>, origins: seq<Origin>, o: Origin)
    requires AllInScript(script, origins) && InScript(script, o)
    ensures AllInScript(script, origins + [o])
    ensures Reported(script, origins + [o]) == Plus(Reported(script, origins), SendTally(SendAt(script, o)))
  {
    hide DoneTally, DoneTallyOf, EventsOf, Plus;
    EventsAppend(script, origins, o);
    match SendAt(script, o).msg {
      case Progress(e) => DoneTallyAppend(EventsOf(script, origins), e);
      case PlanReady(_, _, _, _) =>
        assert EventsOf(script, origins) + [] == EventsOf(script, origins);
        PlusZero(Reported(script, origins));
    }
  }

  /** One send more, accepted or given up, is one send more in the script. */
  lemma AdvanceSends(s: Pump, l: nat)
    requires Placed(s) && HasSend(s, l)
    ensures Placed(Advance(s, l))
    ensures ScriptTally(SentScript(Advance(s, l))) == Plus(ScriptTally(SentScript(s)), SendTally(Head(s, l)))
  {
    hide Sum, SendTally, LaneTallies, SentPart, ScriptTally;
    var lanes := s.script[s.phase];
    SentOneMore(lanes, s.cursors, l);
    ScriptTallyAppend(s.script[..s.phase], SentPart(lanes, s.cursors));
    ScriptTallyAppend(s.script[..s.phase], SentPart(lanes, Advance(s, l).cursors));
  }

  lemma NextPhaseSends(s: Pump)
    requires Placed(s) && PhaseOver(s)
    ensures Placed(Next(s, NextPhase)) && ScriptTally(SentScript(Next(s, NextPhase))) == ScriptTally(SentScript(s))
  {
    hide Sum, SendTally, LaneTallies, ScriptTally;
    var t := Next(s, NextPhase);
    SentWhole(s);
    assert SentScript(s) == s.script[..t.phase];
    if t.phase < |s.script| {
      ScriptTallyAppend(s.script[..t.phase], SentPart(s.script[t.phase], t.cursors));
      NothingSent(s.script[t.phase], t.cursors);
      PlusZero(ScriptTally(s.script[..t.phase]));
    } else {
      assert s.script[..t.phase] == s.script;
    }
  }

  lemma AccountedNext(s: Pump, a: Action)
    requires Accounted(s) && Enabled(s, a)
    ensures Accounted(Next(s, a))
  {
    hide ScriptTally, SentScript, Reported, SendTally, Enabled, Advance;
    PlacedNext(s, a);
    if a.Accept? || a.Drop? {
      AccountedSend(s, a);
    } else {
      KeptLists(s, a);
      if a.NextPhase? {
        assert PhaseOver(s) by { NextPhaseIsEnabled(s); }
        NextPhaseSends(s);
      } else {
        SameSent(s, a);
      }
    }
  }

  lemma NextPhaseIsEnabled(s: Pump)
    requires Placed(s) && Enabled(s, NextPhase)
    ensures PhaseOver(s)
  {
  }

  lemma SameSent(s: Pump, a: Action)
    requires Placed(s) && Enabled(s, a) && !a.Accept? && !a.Drop? && !a.NextPhase?
    ensures Placed(Next(s, a)) && SentScript(Next(s, a)) == SentScript(s)
  {
    PlacedNext(s, a);
  }

  lemma AccountedSend(s: Pump, a: Action)
    requires Accounted(s) && Enabled(s, a) && (a.Accept? || a.Drop?)
    ensures Accounted(Next(s, a))
  {
    hide ScriptTally, SentScript, Reported, SendTally;
    var l, t := a.lane, Next(s, a);
    var o := Origin(s.phase, l, s.cursors[l]);
    PlacedNext(s, a);
    AdvanceSends(s, l);
    assert InScript(s.script, o) && SendAt(s.script, o) == Head(s, l);
    SameSentScript(Advance(s, l), t);
    if a.Accept? {
      ReportedAppend(s.script, s.accepted, o);
    } else {
      ReportedAppend(s.script, s.dropped, o);
    }
  }

  lemma SameSentScript(s: Pump, t: Pump)
    requires Placed(s) && t.script == s.script && t.phase == s.phase && t.cursors == s.cursors
    ensures Placed(t) && SentScript(t) == SentScript(s)
  {
  }

  lemma EmptyScript()
    ensures ScriptTally([]) == ZERO
  {
  }

  lemma StartOfPhase(script: seq<Phase>)
    requires script != []
    ensures |Start(script).cursors| == |script[0]| && forall l :: 0 <= l < |script[0]| ==> Start(script).cursors[l] == 0
    ensures SentScript(Start(script)) == [] + [SentPart(script[0], Start(script).cursors)]
  {
    hide SentPart;
    assert script[..0] == [];
  }

  lemma StartSends(script: seq<Phase>)
    ensures ScriptTally(SentScript(Start(script))) == ZERO
  {
    hide Sum, LaneTallies, SentPart, ScriptTally, Plus;
    EmptyScript();
    if script != [] {
      StartOfPhase(script);
      var part := SentPart(script[0], Start(script).cursors);
      ScriptTallyAppend([], part);
      NothingSent(script[0], Start(script).cursors);
      PlusZero(ZERO);
    }
  }

  lemma NothingReported(script: seq<Phase>)
    ensures Reported(script, []) == ZERO
  {
    hide Sum;
    EmptySum();
  }

  lemma AccountedStart(script: seq<Phase>)
    ensures Accounted(Start(script))
  {
    hide ScriptTally, SentScript, Reported;
    StartSends(script);
    NothingReported(script);
  }

  lemma {:induction false} AccountedRun(s: Pump, run: seq<Action>)
    requires Accounted(s) && Exec(s, run).Some?
    ensures Accounted(Exec(s, run).value)
    decreases |run|
  {
    hide Accounted, Next, Enabled;
    AccountedIsPlaced(s);
    if run != [] {
      PlacedNext(s, run[0]);
      AccountedNext(s, run[0]);
      AccountedRun(Next(s, run[0]), run[1..]);
    }
  }

  lemma AccountedIsPlaced(s: Pump)
    requires Accounted(s)
    ensures Placed(s)
  {
  }

  lemma PartsInScript(script: seq<Phase>, a: seq<Origin>, b: seq<Origin>)
    requires AllInScript(script, a + b)
    ensures AllInScript(script, a) && AllInScript(script, b)
  {
    assert forall i :: 0 <= i < |a| ==> (a + b)[i] == a[i];
    assert forall i :: 0 <= i < |b| ==> (a + b)[|a| + i] == b[i];
  }

  lemma EventsConcat(script: seq<Phase>, a: seq<Origin>, b: seq<Origin>)
    requires AllInScript(script, a + b)
    ensures AllInScript(script, a) && AllInScript(script, b)
    ensures EventsOf(script, a + b) == EventsOf(script, a) + EventsOf(script, b)
  {
    hide EventsOf, AllInScript;
    PartsInScript(script, a, b);
    if b == [] {
      assert a + b == a;
      NoEvents(script);
    } else {
      var init, last := b[..|b| - 1], b[|b| - 1];
      assert a + b == (a + init) + [last] && init + [last] == b;
      PartsInScript(script, a + init, [last]);
      EventsConcat(script, a, init);
      EventsOfLast(script, a + init, last);
      EventsOfLast(script, init, last);
    }
  }

  lemma EventsOfLast(script: seq<Phase>, origins: seq<Origin>, o: Origin)
    requires AllInScript(script, origins) && AllInScript(script, [o])
    ensures AllInScript(script, origins + [o])
    ensures EventsOf(script, origins + [o]) == EventsOf(script, origins) + EventsOf(script, [o])
  {
    hide EventsOf;
    assert InScript(script, [o][0]);
    EventsAppend(script, origins, o);
    EventsAppend(script, [], o);
    NoEvents(script);
    assert [] + [o] == [o];
  }

  /** A finished screen: what was accepted was shown or is left in the channel. */
  lemma ShownAndLeft(s: Pump)
    requires Inv(s) && Finished(s)
    ensures AllInScript(s.script, s.accepted) && AllInScript(s.script, s.delivered)
    ensures AllInScript(s.script, s.buffer) && AllInScript(s.script, s.dropped)
    ensures s.accepted == s.delivered + s.buffer && s.phase == |s.script|
    ensures EventsOf(s.script, s.accepted) == EventsOf(s.script, s.delivered) + EventsOf(s.script, s.buffer)
  {
    assert s.inbox == [] && s.accepted == s.delivered + s.buffer;
    forall i | 0 <= i < |s.accepted| ensures InScript(s.script, s.accepted[i]) {
      assert Passed(s, s.accepted[i]);
    }
    forall i | 0 <= i < |s.dropped| ensures InScript(s.script, s.dropped[i]) {
      assert s.dropped[i] in s.dropped;
    }
    EventsConcat(s.script, s.delivered, s.buffer);
  }

  /** Whatever the lanes, the cancellations and the scheduler: the tables, rows and bytes shown, left in
      the channel and given up are together those that were sent. */
  lemma NothingUnaccounted(script: seq<Phase>, run: seq<Action>)
    requires Exec(Start(script), run).Some? && Finished(Exec(Start(script), run).value)
    ensures var t := Exec(Start(script), run).value;
      && AllInScript(script, t.delivered) && AllInScript(script, t.buffer) && AllInScript(script, t.dropped)
      && Plus(Plus(Reported(script, t.delivered), Reported(script, t.buffer)), Reported(script, t.dropped)) == ScriptTally(script)
  {
    hide Exec, Inv, DoneTally, EventsOf, ScriptTally, Plus;
    InvStart(script);
    EveryRun(Start(script), run);
    AccountedStart(script);
    AccountedRun(Start(script), run);
    var t := Exec(Start(script), run).value;
    ShownAndLeft(t);
    DoneTallyConcat(EventsOf(script, t.delivered), EventsOf(script, t.buffer));
  }

  // ---------- order ----------

  function SendEvents(m: Send): seq<Event> {
    match m.msg
    case Progress(e) => [e]
    case PlanReady(_, _, _, _) => []
  }

  function LaneEvents(lane: seq<Send>): seq<Event> {
    if lane == [] then [] else LaneEvents(lane[..|lane| - 1]) + SendEvents(lane[|lane| - 1])
  }

  function PhaseEvents(lanes: Phase): seq<Event> {
    if lanes == [] then [] else LaneEvents(lanes[0])
  }

  /** The events of a script without parallel lanes, in order. */
  function ScriptEvents(script: seq<Phase>): seq<Event> {
    if script == [] then [] else ScriptEvents(script[..|script| - 1]) + PhaseEvents(script[|script| - 1])
  }

  ghost predicate OneLaneEach(script: seq<Phase>) {
    forall i :: 0 <= i < |script| ==> |script[i]| <= 1
  }

  ghost predicate NoneCancelled(script: seq<Phase>) {
    forall o :: InScript(script, o) && SendAt(script, o).msg.Progress? ==> !SendAt(script, o).cancelled
  }

  ghost predicate InOrder(s: Pump) {
    && Placed(s) && AllInScript(s.script, s.accepted) && OneLaneEach(s.script) && NoneCancelled(s.script)
    && EventsOf(s.script, s.accepted) == ScriptEvents(SentScript(s))
  }

  lemma ScriptEventsAppend(script: seq<Phase>, lanes: Phase)
    ensures ScriptEvents(script + [lanes]) == ScriptEvents(script) + PhaseEvents(lanes)
  {
    assert (script + [lanes])[..|script|] == script;
  }

  lemma LaneEventsAppend(lane: seq<Send>, m: Send)
    ensures LaneEvents(lane + [m]) == LaneEvents(lane) + SendEvents(m)
  {
    assert (lane + [m])[..|lane|] == lane;
  }

  lemma AdvanceEvents(s: Pump, l: nat)
    requires Placed(s) && HasSend(s, l) && OneLaneEach(s.script)
    ensures Placed(Advance(s, l))
    ensures ScriptEvents(SentScript(Advance(s, l))) == ScriptEvents(SentScript(s)) + SendEvents(Head(s, l))
  {
    hide SendEvents, ScriptEvents, LaneEvents;
    var lane, c := s.script[s.phase][0], s.cursors[0];
    assert l == 0 && Advance(s, l).cursors == [c + 1];
    assert lane[..c + 1] == lane[..c] + [lane[c]];
    LaneEventsAppend(lane[..c], lane[c]);
    ScriptEventsAppend(s.script[..s.phase], SentPart(s.script[s.phase], s.cursors));
    ScriptEventsAppend(s.script[..s.phase], SentPart(s.script[s.phase], Advance(s, l).cursors));
  }

  lemma NextPhaseEvents(s: Pump)
    requires Placed(s) && PhaseOver(s)
    ensures Placed(Next(s, NextPhase)) && ScriptEvents(SentScript(Next(s, NextPhase))) == ScriptEvents(SentScript(s))
  {
    hide ScriptEvents, SendEvents;
    var t := Next(s, NextPhase);
    SentWhole(s);
    assert SentScript(s) == s.script[..t.phase];
    if t.phase < |s.script| {
      ScriptEventsAppend(s.script[..t.phase], SentPart(s.script[t.phase], t.cursors));
    } else {
      assert s.script[..t.phase] == s.script;
    }
  }

  lemma InOrderNext(s: Pump, a: Action)
    requires InOrder(s) && Enabled(s, a)
    ensures InOrder(Next(s, a))
  {
    hide ScriptEvents, SentScript, EventsOf, SendEvents, Enabled, Advance;
    PlacedNext(s, a);
    if a.Accept? || a.Drop? {
      InOrderSend(s, a);
    } else {
      KeptLists(s, a);
      if a.NextPhase? {
        assert PhaseOver(s) by { NextPhaseIsEnabled(s); }
        NextPhaseEvents(s);
      } else {
        SameSent(s, a);
      }
    }
  }

  lemma InOrderSend(s: Pump, a: Action)
    requires InOrder(s) && Enabled(s, a) && (a.Accept? || a.Drop?)
    ensures InOrder(Next(s, a))
  {
    hide ScriptEvents, SentScript, EventsOf;
    var l, t := a.lane, Next(s, a);
    var o := Origin(s.phase, l, s.cursors[l]);
    PlacedNext(s, a);
    AdvanceEvents(s, l);
    assert InScript(s.script, o) && SendAt(s.script, o) == Head(s, l);
    SameSentScript(Advance(s, l), t);
    if a.Accept? {
      EventsAppend(s.script, s.accepted, o);
    } else {
      assert Head(s, l).msg.PlanReady?;
    }
  }

  lemma InOrderStart(script: seq<Phase>)
    requires OneLaneEach(script) && NoneCancelled(script)
    ensures InOrder(Start(script))
  {
    hide ScriptEvents, EventsOf;
    var s := Start(script);
    NoEvents(script);
    NothingIsNoEvents();
    if script != [] {
      assert SentScript(s) == [] + [SentPart(script[0], s.cursors)];
      ScriptEventsAppend([], SentPart(script[0], s.cursors));
    }
  }

  lemma NothingIsNoEvents()
    ensures ScriptEvents([]) == []
  {
  }

  lemma {:induction false} InOrderRun(s: Pump, run: seq<Action>)
    requires InOrder(s) && Exec(s, run).Some?
    ensures InOrder(Exec(s, run).value)
    decreases |run|
  {
    hide InOrder, Next, Enabled;
    InOrderIsPlaced(s);
    if run != [] {
      PlacedNext(s, run[0]);
      InOrderNext(s, run[0]);
      InOrderRun(Next(s, run[0]), run[1..]);
    }
  }

  lemma InOrderIsPlaced(s: Pump)
    requires InOrder(s)
    ensures Placed(s)
  {
  }

  /** Without parallel lanes and with a live context the events shown, followed by those left in the
      channel, are the events sent, in order. */
  lemma ShownInOrder(script: seq<Phase>, run: seq<Action>)
    requires OneLaneEach(script) && NoneCancelled(script)
    requires Exec(Start(script), run).Some? && Finished(Exec(Start(script), run).value)
    ensures var t := Exec(Start(script), run).value;
      && AllInScript(script, t.delivered) && AllInScript(script, t.buffer)
      && EventsOf(script, t.delivered) + EventsOf(script, t.buffer) == ScriptEvents(script)
  {
    hide Exec, Inv, EventsOf, ScriptEvents, OneLaneEach, NoneCancelled;
    InvStart(script);
    EveryRun(Start(script), run);
    InOrderStart(script);
    InOrderRun(Start(script), run);
    ShownAndLeft(Exec(Start(script), run).value);
  }
}
