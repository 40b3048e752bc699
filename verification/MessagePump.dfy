/** The hand-over between the sync goroutine and the screen (tui/app.go): a buffered event channel,
    a one-place done channel, and a wait that Update re-arms after every message. Every sender,
    the runtime and Update are actors of a state machine; a run is any sequence of enabled actions. */
module MessagePump {
  import opened Models
  import opened Tallies
  import opened Events
  import opened Dashboard

  datatype Msg =
    | PlanReady(database: string, tables: seq<Table>, rows: nat, bytes: nat)
    | Progress(event: Event)

  /** One send on the event channel, and whether its context is cancelled by then. */
  datatype Send = Send(msg: Msg, cancelled: bool)

  /** Sends of goroutines that run side by side: each lane is in order, and the phase ends when all
      lanes are through. Code that runs alone is a phase with one lane. */
  type Phase = seq<seq<Send>>

  /** Where in the script a message comes from. */
  datatype Origin = Origin(phase: nat, lane: nat, pos: nat)

  datatype Delivery = Message(origin: Origin) | Finish

  datatype Done = Unsent | Waiting | Taken

  const CAPACITY := 256

  datatype Pump = Pump(
    script: seq<Phase>,
    phase: nat,
    cursors: seq<nat>,       // how far each lane of the phase is
    buffer: seq<Origin>,     // the event channel
    closed: bool,
    done: Done,              // the done channel
    started: bool,           // Update has handled syncStartedMsg
    selecting: nat,          // waits blocked in the select
    draining: nat,           // waits that saw the closed channel and block on done alone
    inbox: seq<Delivery>,    // returned by waits, not yet handled by Update
    finishes: nat,           // finish messages handled
    accepted: seq<Origin>,
    dropped: seq<Origin>,
    delivered: seq<Origin>)  // messages handled, in order

  datatype Action =
    | Accept(lane: nat)
    | Drop(lane: nat)
    | NextPhase
    | SendDone
    | CloseEvents
    | StartScreen
    | ReceiveEvent
    | ReceiveDone
    | ReceiveClosed
    | DrainDone
    | Update

  function ZeroCursors(script: seq<Phase>, phase: nat): seq<nat> {
    if phase < |script| then seq(|script[phase]|, _ => 0) else []
  }

  function Start(script: seq<Phase>): Pump {
    Pump(script, 0, ZeroCursors(script, 0), [], false, Unsent, false, 0, 0, [], 0, [], [], [])
  }

  /** The cursors fit the phase. */
  predicate Placed(s: Pump) {
    if s.phase < |s.script| then
      && |s.cursors| == |s.script[s.phase]|
      && forall l :: 0 <= l < |s.cursors| ==> s.cursors[l] <= |s.script[s.phase][l]|
    else s.phase == |s.script| && s.cursors == []
  }

  predicate HasSend(s: Pump, lane: nat)
    requires Placed(s)
  {
    s.phase < |s.script| && lane < |s.cursors| && s.cursors[lane] < |s.script[s.phase][lane]|
  }

  function Head(s: Pump, lane: nat): Send
    requires Placed(s) && HasSend(s, lane)
  {
    s.script[s.phase][lane][s.cursors[lane]]
  }

  predicate PhaseOver(s: Pump)
    requires Placed(s)
  {
    s.phase < |s.script| && forall l :: 0 <= l < |s.cursors| ==> !HasSend(s, l)
  }

  /** A plan message is dropped when the channel is full; a progress message waits for room, and is
      given up only when its context is cancelled. */
  predicate Enabled(s: Pump, a: Action)
    requires Placed(s)
  {
    match a
    case Accept(l) => HasSend(s, l) && |s.buffer| < CAPACITY && !s.closed
    case Drop(l) => HasSend(s, l) && if Head(s, l).msg.PlanReady? then |s.buffer| >= CAPACITY else Head(s, l).cancelled
    case NextPhase => PhaseOver(s)
    case SendDone => s.phase == |s.script| && s.done.Unsent?
    case CloseEvents => !s.done.Unsent? && !s.closed
    case StartScreen => !s.started
    case ReceiveEvent => s.selecting > 0 && s.buffer != []
    case ReceiveDone => s.selecting > 0 && s.done.Waiting?
    case ReceiveClosed => s.selecting > 0 && s.closed && s.buffer == []
    case DrainDone => s.draining > 0 && s.done.Waiting?
    case Update => s.inbox != []
  }

  function Advance(s: Pump, lane: nat): Pump
    requires Placed(s) && HasSend(s, lane)
  {
    s.(cursors := s.cursors[lane := s.cursors[lane] + 1])
  }

  function Next(s: Pump, a: Action): Pump
    requires Placed(s) && Enabled(s, a)
  {
    match a
    case Accept(l) =>
      var o := Origin(s.phase, l, s.cursors[l]);
      Advance(s, l).(buffer := s.buffer + [o], accepted := s.accepted + [o])
    case Drop(l) => Advance(s, l).(dropped := s.dropped + [Origin(s.phase, l, s.cursors[l])])
    case NextPhase => s.(phase := s.phase + 1, cursors := ZeroCursors(s.script, s.phase + 1))
    case SendDone => s.(done := Waiting)
    case CloseEvents => s.(closed := true)
    case StartScreen => s.(started := true, selecting := s.selecting + 1)
    case ReceiveEvent => s.(selecting := s.selecting - 1, buffer := s.buffer[1..], inbox := s.inbox + [Message(s.buffer[0])])
    case ReceiveDone => s.(selecting := s.selecting - 1, done := Taken, inbox := s.inbox + [Finish])
    case ReceiveClosed => s.(selecting := s.selecting - 1, draining := s.draining + 1)
    case DrainDone => s.(draining := s.draining - 1, done := Taken, inbox := s.inbox + [Finish])
    case Update =>
      match s.inbox[0]
      case Message(o) => s.(inbox := s.inbox[1..], delivered := s.delivered + [o], selecting := s.selecting + 1)
      case Finish => s.(inbox := s.inbox[1..], finishes := s.finishes + 1)
  }

  // ---------- what every step keeps ----------

  /** One token passes between wait, inbox and Update; the finish message ends it. */
  predicate WaitInv(s: Pump) {
    && s.selecting + s.draining + |s.inbox| + s.finishes == (if s.started then 1 else 0)
    && (s.draining > 0 ==> s.closed && s.buffer == [])
    && (s.closed ==> !s.done.Unsent?)
    && (!s.done.Unsent? ==> s.phase == |s.script|)
    && (s.done.Taken? <==> s.finishes == 1 || s.inbox == [Finish])
  }

  function InHand(inbox: seq<Delivery>): seq<Origin> {
    if inbox != [] && inbox[0].Message? then [inbox[0].origin] else []
  }

  /** Nothing is lost, doubled or reordered on the way from the channel to Update. */
  predicate OrderInv(s: Pump) {
    s.accepted == s.delivered + InHand(s.inbox) + s.buffer && |s.buffer| <= CAPACITY
  }

  predicate InScript(script: seq<Phase>, o: Origin) {
    o.phase < |script| && o.lane < |script[o.phase]| && o.pos < |script[o.phase][o.lane]|
  }

  function SendAt(script: seq<Phase>, o: Origin): Send
    requires InScript(script, o)
  {
    script[o.phase][o.lane][o.pos]
  }

  /** The program has got past this send. */
  predicate Passed(s: Pump, o: Origin)
    requires Placed(s)
  {
    InScript(s.script, o) && (o.phase < s.phase || (o.phase == s.phase && o.pos < s.cursors[o.lane]))
  }

  /** `a` is sent before `b` whatever the interleaving, or they are in different lanes of a phase. */
  predicate MayPrecede(a: Origin, b: Origin) {
    a.phase < b.phase || (a.phase == b.phase && (a.lane == b.lane ==> a.pos < b.pos))
  }

  ghost predicate SentInv(s: Pump) {
    && Placed(s)
    && (forall i :: 0 <= i < |s.accepted| ==> Passed(s, s.accepted[i]))
    && (forall i, j :: 0 <= i < j < |s.accepted| ==> MayPrecede(s.accepted[i], s.accepted[j]))
    && (forall o :: Passed(s, o) ==> o in s.accepted || o in s.dropped)
    && (forall o :: o in s.dropped ==> InScript(s.script, o) && (SendAt(s.script, o).msg.PlanReady? || SendAt(s.script, o).cancelled))
  }

  ghost predicate Inv(s: Pump) {
    SentInv(s) && WaitInv(s) && OrderInv(s)
  }

  lemma InvStart(script: seq<Phase>)
    ensures Inv(Start(script))
  {
    hide MayPrecede;
  }

  lemma WaitNext(s: Pump, a: Action)
    requires Placed(s) && WaitInv(s) && Enabled(s, a)
    ensures WaitInv(Next(s, a))
  {
    if a.Update? {
      assert s.inbox == [s.inbox[0]] && Next(s, a).inbox == [];
    } else if a.ReceiveEvent? || a.ReceiveDone? || a.DrainDone? {
      assert s.inbox == [] && Next(s, a).inbox == [Next(s, a).inbox[0]];
      assert Next(s, a).inbox[0].Finish? == !a.ReceiveEvent?;
    }
  }

  lemma OrderNext(s: Pump, a: Action)
    requires Placed(s) && WaitInv(s) && OrderInv(s) && Enabled(s, a)
    ensures OrderInv(Next(s, a))
  {
  }

  lemma PlacedNext(s: Pump, a: Action)
    requires Placed(s) && Enabled(s, a)
    ensures Placed(Next(s, a)) && Next(s, a).script == s.script
  {
  }

  /** What counts as passed after one more send. */
  lemma PassedAdvance(s: Pump, lane: nat, o: Origin)
    requires Placed(s) && HasSend(s, lane)
    ensures Placed(Advance(s, lane))
    ensures Passed(Advance(s, lane), o) <==> Passed(s, o) || o == Origin(s.phase, lane, s.cursors[lane])
  {
  }

  lemma PassedNextPhase(s: Pump, o: Origin)
    requires Placed(s) && PhaseOver(s)
    ensures Placed(Next(s, NextPhase))
    ensures Passed(Next(s, NextPhase), o) <==> Passed(s, o)
  {
    if InScript(s.script, o) && o.phase == s.phase {
      assert !HasSend(s, o.lane);
    }
  }

  lemma SentNext(s: Pump, a: Action)
    requires SentInv(s) && Enabled(s, a)
    ensures SentInv(Next(s, a))
  {
    if a.Accept? {
      AcceptKeepsSent(s, a.lane);
    } else if a.Drop? {
      DropKeepsSent(s, a.lane);
    } else {
      RestKeepsSent(s, a);
    }
  }

  lemma RestKeepsSent(s: Pump, a: Action)
    requires SentInv(s) && Enabled(s, a) && !a.Accept? && !a.Drop?
    ensures SentInv(Next(s, a))
  {
    hide MayPrecede, Enabled, HasSend;
    PlacedNext(s, a);
    SamePassed(s, a);
    KeptLists(s, a);
  }

  lemma KeptLists(s: Pump, a: Action)
    requires Placed(s) && Enabled(s, a) && !a.Accept? && !a.Drop?
    ensures var t := Next(s, a); t.accepted == s.accepted && t.dropped == s.dropped && t.script == s.script
  {
  }

  lemma SamePassed(s: Pump, a: Action)
    requires Placed(s) && Enabled(s, a) && !a.Accept? && !a.Drop?
    ensures Placed(Next(s, a)) && forall o :: Passed(Next(s, a), o) <==> Passed(s, o)
  {
    PlacedNext(s, a);
    if a.NextPhase? {
      forall o ensures Passed(Next(s, a), o) <==> Passed(s, o) {
        PassedNextPhase(s, o);
      }
    }
  }

  lemma DropKeepsSent(s: Pump, l: nat)
    requires SentInv(s) && Enabled(s, Drop(l))
    ensures SentInv(Next(s, Drop(l)))
  {
    hide MayPrecede;
    var t := Next(s, Drop(l));
    PlacedNext(s, Drop(l));
    forall o ensures Passed(t, o) <==> Passed(s, o) || o == Origin(s.phase, l, s.cursors[l]) {
      PassedAdvance(s, l, o);
    }
  }

  lemma AcceptKeepsSent(s: Pump, l: nat)
    requires SentInv(s) && Enabled(s, Accept(l))
    ensures SentInv(Next(s, Accept(l)))
  {
    hide WaitInv;
    var t := Next(s, Accept(l));
    PlacedNext(s, Accept(l));
    var now := Origin(s.phase, l, s.cursors[l]);
    forall o ensures Passed(t, o) <==> Passed(s, o) || o == now {
      PassedAdvance(s, l, o);
    }
    assert !Passed(s, now);
    forall i | 0 <= i < |s.accepted| ensures MayPrecede(s.accepted[i], now) {
      assert Passed(s, s.accepted[i]);
    }
  }

  lemma InvNext(s: Pump, a: Action)
    requires Inv(s) && Enabled(s, a)
    ensures Inv(Next(s, a))
  {
    hide Next, Enabled, Placed, WaitInv, OrderInv;
    SentNext(s, a);
    WaitNext(s, a);
    OrderNext(s, a);
  }

  // ---------- termination and progress ----------

  function Left(lanes: Phase, cursors: seq<nat>): seq<nat>
    requires |cursors| == |lanes| && forall l :: 0 <= l < |cursors| ==> cursors[l] <= |lanes[l]|
  {
    seq(|lanes|, l requires 0 <= l < |lanes| => |lanes[l]| - cursors[l])
  }

  function Sends(lanes: Phase): nat {
    SumOf(Left(lanes, seq(|lanes|, _ => 0)))
  }

  /** Sends and phase ends still to come after the first `phase` phases. */
  function Later(script: seq<Phase>, phase: nat): nat
    requires phase <= |script|
    decreases |script| - phase
  {
    if phase == |script| then 0 else 4 * Sends(script[phase]) + 1 + Later(script, phase + 1)
  }

  function SendsLeft(s: Pump): nat
    requires Placed(s)
  {
    if s.phase == |s.script| then 0
    else 4 * SumOf(Left(s.script[s.phase], s.cursors)) + 1 + Later(s.script, s.phase + 1)
  }

  function DoneWork(done: Done): nat {
    match done case Unsent => 4 case Waiting => 3 case Taken => 0
  }

  function WorkLeft(s: Pump): nat
    requires Placed(s)
  {
    SendsLeft(s) + 3 * |s.buffer| + 2 * |s.inbox| + s.selecting + DoneWork(s.done)
    + (if s.closed then 0 else 1) + (if s.started then 0 else 2)
  }

  lemma AdvanceLowersSendsLeft(s: Pump, lane: nat)
    requires Placed(s) && HasSend(s, lane)
    ensures Placed(Advance(s, lane)) && SendsLeft(Advance(s, lane)) == SendsLeft(s) - 4
  {
    hide SumOf, Later;
    var lanes := s.script[s.phase];
    var before := Left(lanes, s.cursors);
    var next := s.cursors[lane := s.cursors[lane] + 1];
    assert Left(lanes, next) == before[lane := before[lane] - 1];
    SumOfUpdate(before, lane, before[lane] - 1);
  }

  lemma NextPhaseLowersSendsLeft(s: Pump)
    requires Placed(s) && PhaseOver(s)
    ensures Placed(Next(s, NextPhase)) && SendsLeft(Next(s, NextPhase)) < SendsLeft(s)
  {
    hide SumOf;
  }

  /** Every step uses up work, so every run ends: the pump cannot go round for ever. */
  lemma WorkDecreases(s: Pump, a: Action)
    requires Inv(s) && Enabled(s, a)
    ensures Placed(Next(s, a)) && WorkLeft(Next(s, a)) < WorkLeft(s)
  {
    hide SentInv, OrderInv, SendsLeft;
    assert Placed(s) by { SentIsPlaced(s); }
    PlacedNext(s, a);
    if a.Accept? || a.Drop? {
      AdvanceLowersSendsLeft(s, a.lane);
      SameSendsLeft(Advance(s, a.lane), Next(s, a));
    } else if a.NextPhase? {
      NextPhaseLowersSendsLeft(s);
    } else {
      SameSendsLeft(s, Next(s, a));
    }
  }

  lemma SentIsPlaced(s: Pump)
    requires SentInv(s)
    ensures Placed(s)
  {
  }

  lemma SameSendsLeft(s: Pump, t: Pump)
    requires Placed(s) && t.script == s.script && t.phase == s.phase && t.cursors == s.cursors
    ensures Placed(t) && SendsLeft(t) == SendsLeft(s)
  {
  }

  /** Update has handled the finish message and the goroutine has closed the channel. */
  predicate Finished(s: Pump) {
    s.finishes == 1 && s.closed
  }

  /** Until then somebody can always move: a full channel always has a reader, and a waiting screen
      always has something coming. No send has to be given up for this. */
  lemma NeverStuck(s: Pump) returns (a: Action)
    requires Inv(s) && !Finished(s)
    ensures Enabled(s, a) && (a.Drop? ==> Head(s, a.lane).msg.PlanReady?)
  {
    if !s.started {
      a := StartScreen;
    } else if s.inbox != [] {
      a := Update;
    } else if s.selecting > 0 && s.buffer != [] {
      a := ReceiveEvent;
    } else if s.phase < |s.script| {
      if PhaseOver(s) {
        a := NextPhase;
      } else {
        var l: nat :| l < |s.cursors| && HasSend(s, l);
        a := Accept(l);
      }
    } else if s.done.Unsent? {
      a := SendDone;
    } else if !s.closed {
      a := CloseEvents;
    } else {
      a := if s.draining > 0 then DrainDone else ReceiveClosed;
    }
  }

  // ---------- runs ----------

  /** The state after a run, if every action is enabled when its turn comes. */
  function Exec(s: Pump, run: seq<Action>): Option<Pump>
    requires Placed(s)
    decreases |run|
  {
    if run == [] then Some(s)
    else if Enabled(s, run[0]) then
      PlacedNext(s, run[0]);
      Exec(Next(s, run[0]), run[1..])
    else None
  }

  /** Every reachable state keeps the invariant, and no run is longer than the initial work. */
  lemma {:induction false} EveryRun(s: Pump, run: seq<Action>)
    requires Inv(s) && Exec(s, run).Some?
    ensures var t := Exec(s, run).value; Inv(t) && t.script == s.script && WorkLeft(t) + |run| <= WorkLeft(s)
    decreases |run|
  {
    hide Next, Enabled, WorkLeft, Placed, SentInv, WaitInv, OrderInv;
    assert Placed(s) by { SentIsPlaced(s); }
    if run != [] {
      PlacedNext(s, run[0]);
      InvNext(s, run[0]);
      WorkDecreases(s, run[0]);
      SentIsPlaced(Next(s, run[0]));
      EveryRun(Next(s, run[0]), run[1..]);
    }
  }

  /** Pump safety, at any moment of any run: at most one wait is outstanding, at most one finish
      message has been handled, and what Update has handled is an in-order prefix of what the
      channel took. */
  lemma PumpIsSafe(script: seq<Phase>, run: seq<Action>)
    requires Exec(Start(script), run).Some?
    ensures var t := Exec(Start(script), run).value;
      && t.selecting + t.draining <= 1 && t.finishes <= 1
      && t.delivered <= t.accepted
      && (Finished(t) ==> (t.delivered == t.accepted <==> t.buffer == []))
  {
    hide SentInv;
    InvStart(script);
    EveryRun(Start(script), run);
    var t := Exec(Start(script), run).value;
    if Finished(t) {
      assert t.inbox == [];
    }
  }

  /** Once the finish message has been handled nothing more is: it comes last, and once. */
  lemma FinishIsLast(s: Pump, run: seq<Action>)
    requires Inv(s) && s.finishes == 1 && Exec(s, run).Some?
    ensures var t := Exec(s, run).value; t.delivered == s.delivered && t.finishes == 1 && t.inbox == []
  {
  }

  /** What was still in the channel when the finish was taken stays there. */
  lemma {:induction false} FinishFreezesChannel(s: Pump, run: seq<Action>)
    requires Inv(s) && s.done.Taken? && Exec(s, run).Some?
    ensures var t := Exec(s, run).value; t.buffer == s.buffer && t.accepted == s.accepted
    decreases |run|
  {
    hide SentInv, OrderInv;
    SentIsPlaced(s);
    if run != [] {
      PlacedNext(s, run[0]);
      InvNext(s, run[0]);
      assert run[0].CloseEvents? || (run[0].Update? && s.inbox == [Finish]);
      FinishFreezesChannel(Next(s, run[0]), run[1..]);
    }
  }

  /** A finished screen has shown every live progress message exactly when the channel was empty as
      the finish was taken; until then only plan messages and cancelled sends were given up. */
  lemma EverythingShown(script: seq<Phase>, run: seq<Action>)
    requires Exec(Start(script), run).Some? && Finished(Exec(Start(script), run).value)
    ensures var t := Exec(Start(script), run).value;
      && (forall o :: InScript(script, o) && !SendAt(script, o).msg.PlanReady? && !SendAt(script, o).cancelled ==> o in t.accepted)
      && (t.buffer == [] <==> forall o :: o in t.accepted ==> o in t.delivered)
  {
    InvStart(script);
    EveryRun(Start(script), run);
    var t := Exec(Start(script), run).value;
    assert t.inbox == [] && t.accepted == t.delivered + t.buffer;
    forall o | InScript(script, o) && !SendAt(script, o).msg.PlanReady? && !SendAt(script, o).cancelled ensures o in t.accepted {
      assert Passed(t, o);
    }
    if t.buffer != [] {
      var last := t.accepted[|t.accepted| - 1];
      assert forall i :: 0 <= i < |t.delivered| ==> t.delivered[i] == t.accepted[i] && t.accepted[i] != last;
      assert last in t.accepted && last !in t.delivered;
    }
  }

  /** The script of a sync: all plans first, from one goroutine, and only then progress. */
  ghost predicate PlansFirst(script: seq<Phase>) {
    && |script| > 0 && |script[0]| == 1
    && (forall i :: 0 <= i < |script[0][0]| ==> script[0][0][i].msg.PlanReady?)
    && forall o :: InScript(script, o) && o.phase > 0 ==> SendAt(script, o).msg.Progress?
  }

  /** With at most 256 databases no plan message is ever dropped: the channel cannot be full yet. */
  lemma {:induction false} PlansAreKept(s: Pump, run: seq<Action>)
    requires Inv(s) && PlansFirst(s.script) && |s.script[0][0]| <= CAPACITY && Exec(s, run).Some?
    requires s.phase == 0 ==> |s.accepted| <= s.cursors[0]
    requires forall o :: o in s.dropped ==> InScript(s.script, o) && !SendAt(s.script, o).msg.PlanReady?
    ensures var t := Exec(s, run).value;
            forall o :: o in t.dropped ==> InScript(s.script, o) && !SendAt(s.script, o).msg.PlanReady?
    decreases |run|
  {
    hide SentInv, WaitInv;
    SentIsPlaced(s);
    if run != [] {
      PlacedNext(s, run[0]);
      InvNext(s, run[0]);
      if run[0].Drop? {
        var o := Origin(s.phase, run[0].lane, s.cursors[run[0].lane]);
        assert InScript(s.script, o) && SendAt(s.script, o) == Head(s, run[0].lane);
        assert s.phase > 0;
      }
      PlansAreKept(Next(s, run[0]), run[1..]);
    }
  }

  /** With at most 256 databases the screen has been handed every plan, in order, before it is handed
      any progress. */
  lemma PlansComeFirst(script: seq<Phase>, run: seq<Action>, i: nat)
    requires PlansFirst(script) && |script[0][0]| <= CAPACITY && Exec(Start(script), run).Some?
    requires var t := Exec(Start(script), run).value;
             i < |t.delivered| && InScript(script, t.delivered[i]) && SendAt(script, t.delivered[i]).msg.Progress?
    ensures var t := Exec(Start(script), run).value;
      && |script[0][0]| <= i
      && (forall j :: 0 <= j < |script[0][0]| ==> t.delivered[j] == Origin(0, 0, j))
      && forall j :: |script[0][0]| <= j < |t.delivered| ==> InScript(script, t.delivered[j]) && SendAt(script, t.delivered[j]).msg.Progress?
  {
    hide SentInv, WaitInv, PlansFirst;
    InvStart(script);
    EveryRun(Start(script), run);
    StartKept(script);
    PlansAreKept(Start(script), run);
    var t := Exec(Start(script), run).value;
    assert t.delivered <= t.accepted;
    LaterPhase(script, t.delivered[i]);
    PlansAccepted(t, i, |script[0][0]|);
    NoPlansLater(t);
  }

  lemma NoPlansLater(t: Pump)
    requires SentInv(t) && PlansFirst(t.script) && |t.script[0][0]| <= |t.accepted|
    requires forall j :: 0 <= j < |t.script[0][0]| ==> t.accepted[j] == Origin(0, 0, j)
    ensures forall j :: |t.script[0][0]| <= j < |t.accepted| ==> InScript(t.script, t.accepted[j]) && SendAt(t.script, t.accepted[j]).msg.Progress?
  {
    var n := |t.script[0][0]|;
    forall j | n <= j < |t.accepted| ensures InScript(t.script, t.accepted[j]) && SendAt(t.script, t.accepted[j]).msg.Progress? {
      assert Passed(t, t.accepted[j]);
      if n > 0 {
        assert MayPrecede(t.accepted[n - 1], t.accepted[j]);
      }
    }
  }

  lemma StartKept(script: seq<Phase>)
    requires PlansFirst(script)
    ensures var s := Start(script); PlansFirst(s.script) && |s.accepted| <= s.cursors[0] && s.dropped == []
  {
  }

  lemma LaterPhase(script: seq<Phase>, o: Origin)
    requires PlansFirst(script) && InScript(script, o) && SendAt(script, o).msg.Progress?
    ensures o.phase > 0
  {
  }

  /** Once something of a later phase is accepted, the first phase has been accepted in order. */
  lemma {:induction false} PlansAccepted(t: Pump, i: nat, n: nat)
    requires SentInv(t) && PlansFirst(t.script) && n <= |t.script[0][0]|
    requires i < |t.accepted| && t.accepted[i].phase > 0
    requires forall o :: o in t.dropped ==> InScript(t.script, o) && !SendAt(t.script, o).msg.PlanReady?
    ensures n <= |t.accepted| && forall j :: 0 <= j < n ==> t.accepted[j] == Origin(0, 0, j)
  {
    if n > 0 {
      PlansAccepted(t, i, n - 1);
      var plan := Origin(0, 0, n - 1);
      assert Passed(t, t.accepted[i]);
      assert InScript(t.script, plan) && SendAt(t.script, plan).msg.PlanReady?;
      assert Passed(t, plan);
      var x :| 0 <= x < |t.accepted| && t.accepted[x] == plan;
      if x > n - 1 {
        assert MayPrecede(t.accepted[n - 1], t.accepted[x]);
        assert Passed(t, t.accepted[n - 1]);
      }
    }
  }

  /** The plans arrive before the screen reads anything: `k` fit, the next one does not. */
  function FillThenDrop(k: nat): seq<Action> {
    if k == 0 then [Drop(0)] else [Accept(0)] + FillThenDrop(k - 1)
  }

  lemma {:induction false} FullChannelDrops(s: Pump, k: nat)
    requires Placed(s) && PlansFirst(s.script) && s.phase == 0 && !s.closed && |s.buffer| + k == CAPACITY
    requires s.cursors[0] + k < |s.script[0][0]|
    ensures Exec(s, FillThenDrop(k)).Some? && Exec(s, FillThenDrop(k)).value.dropped == s.dropped + [Origin(0, 0, s.cursors[0] + k)]
    decreases k
  {
    if k == 0 {
      ExecStep(s, Drop(0), []);
      assert [Drop(0)] + [] == [Drop(0)];
    } else {
      ExecStep(s, Accept(0), FillThenDrop(k - 1));
      FullChannelDrops(Next(s, Accept(0)), k - 1);
    }
  }

  ghost predicate DropsPlan(script: seq<Phase>, run: seq<Action>) {
    Exec(Start(script), run).Some? && exists o :: o in Exec(Start(script), run).value.dropped && InScript(script, o) && SendAt(script, o).msg.PlanReady?
  }

  /** A plan message can be dropped exactly when there are more databases than the channel has places. */
  lemma PlansDroppedIff(script: seq<Phase>)
    requires PlansFirst(script)
    ensures (exists run :: DropsPlan(script, run)) <==> |script[0][0]| > 256
  {
    var s := Start(script);
    InvStart(script);
    if |script[0][0]| > CAPACITY {
      FullChannelDrops(s, CAPACITY);
      assert InScript(script, Origin(0, 0, CAPACITY));
      assert Origin(0, 0, CAPACITY) in Exec(s, FillThenDrop(CAPACITY)).value.dropped;
      assert DropsPlan(script, FillThenDrop(CAPACITY));
    } else {
      forall run ensures !DropsPlan(script, run) {
        if Exec(s, run).Some? {
          PlansAreKept(s, run);
        }
      }
    }
  }

  lemma ExecNone(s: Pump)
    requires Placed(s)
    ensures Exec(s, []) == Some(s)
  {
  }

  lemma {:induction false} ExecAppend(s: Pump, run: seq<Action>, a: Action)
    requires Placed(s) && Exec(s, run).Some? && Placed(Exec(s, run).value) && Enabled(Exec(s, run).value, a)
    ensures Exec(s, run + [a]) == Some(Next(Exec(s, run).value, a))
    decreases |run|
  {
    hide Enabled, Next, Placed;
    if run == [] {
      assert [] + [a] == [a] + [];
      ExecStep(s, a, []);
      ExecNone(Next(s, a));
    } else {
      PlacedNext(s, run[0]);
      ExecAppend(Next(s, run[0]), run[1..], a);
      assert (run + [a])[1..] == run[1..] + [a];
    }
  }

  lemma ExecStep(s: Pump, a: Action, rest: seq<Action>)
    requires Placed(s) && Enabled(s, a)
    ensures Placed(Next(s, a)) && Exec(s, [a] + rest) == Exec(Next(s, a), rest)
  {
    PlacedNext(s, a);
    assert ([a] + rest)[1..] == rest;
  }

  // ---------- the screen ----------

  /** The events among handled messages, in order. */
  function EventsOf(script: seq<Phase>, origins: seq<Origin>): seq<Event>
    requires forall i :: 0 <= i < |origins| ==> InScript(script, origins[i])
  {
    if origins == [] then []
    else
      var before := EventsOf(script, origins[..|origins| - 1]);
      match SendAt(script, origins[|origins| - 1]).msg
      case Progress(e) => before + [e]
      case PlanReady(_, _, _, _) => before
  }

  lemma EventsAppend(script: seq<Phase>, origins: seq<Origin>, o: Origin)
    requires InScript(script, o) && forall i :: 0 <= i < |origins| ==> InScript(script, origins[i])
    ensures EventsOf(script, origins + [o]) == EventsOf(script, origins) + match SendAt(script, o).msg case Progress(e) => [e] case _ => []
  {
    assert (origins + [o])[..|origins|] == origins;
  }

  lemma DeliveredInScript(s: Pump)
    requires Inv(s)
    ensures Placed(s) && s.delivered <= s.accepted
    ensures forall i :: 0 <= i < |s.delivered| ==> InScript(s.script, s.delivered[i])
    ensures s.inbox != [] && s.inbox[0].Message? ==> InScript(s.script, s.inbox[0].origin)
  {
    forall i | 0 <= i < |s.delivered| ensures InScript(s.script, s.delivered[i]) {
      assert s.accepted[i] == s.delivered[i] && Passed(s, s.accepted[i]);
    }
    if s.inbox != [] && s.inbox[0].Message? {
      assert s.accepted[|s.delivered|] == s.inbox[0].origin && Passed(s, s.accepted[|s.delivered|]);
    }
  }

  // ---------- the plans on the screen ----------

  /** The last plan of its database among these messages. */
  ghost predicate IsLastPlan(script: seq<Phase>, origins: seq<Origin>, i: nat)
    requires forall j :: 0 <= j < |origins| ==> InScript(script, origins[j])
  {
    && i < |origins| && SendAt(script, origins[i]).msg.PlanReady?
    && forall j :: i < j < |origins| && SendAt(script, origins[j]).msg.PlanReady? ==>
         SendAt(script, origins[j]).msg.database != SendAt(script, origins[i]).msg.database
  }

  ghost predicate HasPlan(script: seq<Phase>, origins: seq<Origin>, database: string)
    requires forall j :: 0 <= j < |origins| ==> InScript(script, origins[j])
  {
    exists i :: 0 <= i < |origins| && SendAt(script, origins[i]).msg.PlanReady? && SendAt(script, origins[i]).msg.database == database
  }

  /** After these messages every plan among them is registered, the last one of each database, and
      nothing else has changed. */
  ghost predicate Registered(script: seq<Phase>, origins: seq<Origin>, before: map<string, DBPlan>, plans: map<string, DBPlan>)
    requires forall j :: 0 <= j < |origins| ==> InScript(script, origins[j])
  {
    && (forall i: nat :: i < |origins| && IsLastPlan(script, origins, i) ==>
          var m := SendAt(script, origins[i]).msg;
          m.database in plans && plans[m.database] == DBPlan(m.tables, m.rows, m.bytes))
    && forall d :: !HasPlan(script, origins, d) ==> (d in plans <==> d in before) && (d in plans ==> plans[d] == before[d])
  }

  lemma RegisteredNone(script: seq<Phase>, plans: map<string, DBPlan>)
    ensures Registered(script, [], plans, plans)
  {
  }

  lemma RegisteredEvent(script: seq<Phase>, origins: seq<Origin>, o: Origin, before: map<string, DBPlan>, plans: map<string, DBPlan>)
    requires InScript(script, o) && forall j :: 0 <= j < |origins| ==> InScript(script, origins[j])
    requires Registered(script, origins, before, plans) && SendAt(script, o).msg.Progress?
    ensures Registered(script, origins + [o], before, plans)
  {
    var more := origins + [o];
    forall i: nat | i < |more| && IsLastPlan(script, more, i) ensures i < |origins| && IsLastPlan(script, origins, i) {
      assert forall j :: 0 <= j < |origins| ==> more[j] == origins[j];
    }
    forall d | !HasPlan(script, more, d) ensures !HasPlan(script, origins, d) {
      assert forall j :: 0 <= j < |origins| ==> more[j] == origins[j];
    }
  }

  lemma RegisteredPlan(script: seq<Phase>, origins: seq<Origin>, o: Origin, before: map<string, DBPlan>, plans: map<string, DBPlan>)
    requires InScript(script, o) && forall j :: 0 <= j < |origins| ==> InScript(script, origins[j])
    requires Registered(script, origins, before, plans) && SendAt(script, o).msg.PlanReady?
    ensures var m := SendAt(script, o).msg; Registered(script, origins + [o], before, plans[m.database := DBPlan(m.tables, m.rows, m.bytes)])
  {
    hide InScript, IsLastPlan, HasPlan;
    var more := origins + [o];
    var m := SendAt(script, o).msg;
    var after := plans[m.database := DBPlan(m.tables, m.rows, m.bytes)];
    forall i: nat | i < |more| && IsLastPlan(script, more, i)
      ensures var n := SendAt(script, more[i]).msg; n.PlanReady? && n.database in after && after[n.database] == DBPlan(n.tables, n.rows, n.bytes)
    {
      IsPlan(script, more, i);
      if i < |origins| {
        StillLastPlan(script, origins, o, i);
      }
    }
    forall d | !HasPlan(script, more, d) ensures (d in after <==> d in before) && (d in after ==> after[d] == before[d]) {
      NoPlanBefore(script, origins, o, d);
    }
  }

  lemma IsPlan(script: seq<Phase>, origins: seq<Origin>, i: nat)
    requires forall j :: 0 <= j < |origins| ==> InScript(script, origins[j])
    requires IsLastPlan(script, origins, i)
    ensures i < |origins| && SendAt(script, origins[i]).msg.PlanReady?
  {
  }

  lemma StillLastPlan(script: seq<Phase>, origins: seq<Origin>, o: Origin, i: nat)
    requires InScript(script, o) && forall j :: 0 <= j < |origins| ==> InScript(script, origins[j])
    requires i < |origins| && IsLastPlan(script, origins + [o], i)
    ensures IsLastPlan(script, origins, i) && (origins + [o])[i] == origins[i]
    ensures SendAt(script, o).msg.PlanReady? ==> SendAt(script, o).msg.database != SendAt(script, origins[i]).msg.database
  {
    var more := origins + [o];
    assert more[|origins|] == o && forall j :: 0 <= j < |origins| ==> more[j] == origins[j];
  }

  lemma NoPlanBefore(script: seq<Phase>, origins: seq<Origin>, o: Origin, d: string)
    requires InScript(script, o) && forall j :: 0 <= j < |origins| ==> InScript(script, origins[j])
    requires !HasPlan(script, origins + [o], d)
    ensures !HasPlan(script, origins, d) && (SendAt(script, o).msg.PlanReady? ==> SendAt(script, o).msg.database != d)
  {
    var more := origins + [o];
    assert more[|origins|] == o && forall j :: 0 <= j < |origins| ==> more[j] == origins[j];
  }

  /** What the screen knows of the plans after these messages. `plansAt[i]` were registered when message
      `i` was handled, and message `shown` was the last to show another database. */
  ghost predicate PlansFollow(script: seq<Phase>, origins: seq<Origin>, before: Planned, plansAt: seq<map<string, DBPlan>>, shown: Option<nat>, now: Planned)
    requires forall j :: 0 <= j < |origins| ==> InScript(script, origins[j])
  {
    && |plansAt| == |origins|
    && (forall i :: 0 <= i < |origins| ==> Registered(script, origins[..i], before.dbPlans, plansAt[i]))
    && Registered(script, origins, before.dbPlans, now.dbPlans)
    // The queue's row estimate has grown at least by the rows of those plans.
    && before.queueRows + SumOf(seq(|origins|, i requires 0 <= i < |origins| =>
         match SendAt(script, origins[i]).msg case PlanReady(_, _, rows, _) => rows case Progress(_) => 0)) <= now.queueRows
    && ShownSince(script, origins, before, plansAt, shown, now)
  }

  /** The database tier still carries the plan that was registered when the database was last switched. */
  ghost predicate ShownSince(script: seq<Phase>, origins: seq<Origin>, before: Planned, plansAt: seq<map<string, DBPlan>>, shown: Option<nat>, now: Planned)
    requires |plansAt| == |origins| && forall j :: 0 <= j < |origins| ==> InScript(script, origins[j])
  {
    match shown
    case None =>
      && now.database == before.database && now.db.tablesTotal == before.db.tablesTotal && now.db.bytesEstimated == before.db.bytesEstimated
      && StaysOn(script, origins, now.database, 0)
    case Some(k) =>
      && k < |origins|
      && Names(script, origins[k], now.database) && now.database != ""
      && CarriesPlan(now.db, plansAt[k], now.database)
      && StaysOn(script, origins, now.database, k)
  }

  predicate Names(script: seq<Phase>, o: Origin, database: string)
    requires InScript(script, o)
  {
    SendAt(script, o).msg.Progress? && SendAt(script, o).msg.event.database == database
  }

  /** From message `k` on, no event names another database. */
  ghost predicate StaysOn(script: seq<Phase>, origins: seq<Origin>, database: string, k: nat)
    requires forall j :: 0 <= j < |origins| ==> InScript(script, origins[j])
  {
    forall i :: k <= i < |origins| && SendAt(script, origins[i]).msg.Progress? ==> Names(script, origins[i], "") || Names(script, origins[i], database)
  }

  /** What handling one message does to the plans. */
  ghost predicate MessageMoves(was: Planned, now: Planned, m: Msg) {
    match m
    case Progress(e) => EventMoves(was, now, e)
    case PlanReady(database, tables, rows, bytes) =>
      && now.dbPlans == was.dbPlans[database := DBPlan(tables, rows, bytes)]
      && now.queueRows == was.queueRows + rows && now.db == was.db && now.database == was.database
  }

  lemma NoPlansYet(script: seq<Phase>, before: Planned)
    ensures PlansFollow(script, [], before, [], None, before)
  {
    RegisteredNone(script, before.dbPlans);
  }

  /** Whether a message shows another database than the one before it. */
  function ShownAfter(was: string, m: Msg, shown: Option<nat>, i: nat): Option<nat> {
    if m.Progress? && m.event.database != "" && m.event.database != was then Some(i) else shown
  }

  lemma OneMoreMessage(script: seq<Phase>, origins: seq<Origin>, o: Origin, before: Planned, plansAt: seq<map<string, DBPlan>>,
                       shown: Option<nat>, was: Planned, now: Planned)
    requires InScript(script, o) && forall j :: 0 <= j < |origins| ==> InScript(script, origins[j])
    requires PlansFollow(script, origins, before, plansAt, shown, was) && MessageMoves(was, now, SendAt(script, o).msg)
    ensures PlansFollow(script, origins + [o], before, plansAt + [was.dbPlans],
                        ShownAfter(was.database, SendAt(script, o).msg, shown, |origins|), now)
  {
    hide Registered, ShownSince, InScript, SumOf, EventMoves;
    var more, all := origins + [o], plansAt + [was.dbPlans];
    forall i | 0 <= i < |more| ensures Registered(script, more[..i], before.dbPlans, all[i]) {
      if i < |origins| {
        assert more[..i] == origins[..i];
      } else {
        assert more[..i] == origins;
      }
    }
    if SendAt(script, o).msg.PlanReady? {
      RegisteredPlan(script, origins, o, before.dbPlans, was.dbPlans);
    } else {
      RegisteredEvent(script, origins, o, before.dbPlans, was.dbPlans);
      EventKeepsPlans(was, now, SendAt(script, o).msg.event);
    }
    PlanRowsAppend(script, origins, o);
    ShownNext(script, origins, o, before, plansAt, shown, was, now);
  }

  lemma EventKeepsPlans(was: Planned, now: Planned, e: Event)
    requires EventMoves(was, now, e)
    ensures now.dbPlans == was.dbPlans && was.queueRows <= now.queueRows
  {
  }

  lemma PlanRowsAppend(script: seq<Phase>, origins: seq<Origin>, o: Origin)
    requires InScript(script, o) && forall j :: 0 <= j < |origins| ==> InScript(script, origins[j])
    ensures var more := origins + [o];
      SumOf(seq(|more|, i requires 0 <= i < |more| => match SendAt(script, more[i]).msg case PlanReady(_, _, rows, _) => rows case Progress(_) => 0))
      == SumOf(seq(|origins|, i requires 0 <= i < |origins| => match SendAt(script, origins[i]).msg case PlanReady(_, _, rows, _) => rows case Progress(_) => 0))
         + match SendAt(script, o).msg case PlanReady(_, _, rows, _) => rows case Progress(_) => 0
  {
    var more := origins + [o];
    var rows: seq<nat> := seq(|more|, i requires 0 <= i < |more| => match SendAt(script, more[i]).msg case PlanReady(_, _, rows, _) => rows case Progress(_) => 0);
    assert rows[..|origins|] == seq(|origins|, i requires 0 <= i < |origins| => match SendAt(script, origins[i]).msg case PlanReady(_, _, rows, _) => rows case Progress(_) => 0);
  }

  lemma ShownNext(script: seq<Phase>, origins: seq<Origin>, o: Origin, before: Planned, plansAt: seq<map<string, DBPlan>>,
                  shown: Option<nat>, was: Planned, now: Planned)
    requires InScript(script, o) && |plansAt| == |origins| && forall j :: 0 <= j < |origins| ==> InScript(script, origins[j])
    requires ShownSince(script, origins, before, plansAt, shown, was) && MessageMoves(was, now, SendAt(script, o).msg)
    ensures ShownSince(script, origins + [o], before, plansAt + [was.dbPlans],
                       ShownAfter(was.database, SendAt(script, o).msg, shown, |origins|), now)
  {
    var more := origins + [o];
    assert more[|origins|] == o && forall j :: 0 <= j < |origins| ==> more[j] == origins[j];
  }

  /** The message cases of Update: a progress event is applied, a plan is registered. */
  method Handle(p: LiveProgress, m: Msg)
    requires p.Valid()
    modifies p
    ensures p.Valid() && p.initial == old(p.initial)
    ensures p.history == old(p.history) + match m case Progress(e) => [e] case _ => []
    ensures MessageMoves(old(p.PlannedNow()), p.PlannedNow(), m)
  {
    match m {
      case Progress(e) => p.Apply(e);
      case PlanReady(database, tables, rows, bytes) => p.RegisterDB(database, tables, rows, bytes);
    }
  }

  /** A whole sync under any scheduler: it ends, and the dashboard's history is a prefix of the
      events the channel took, so no counter ever shows more than was sent. */
  method RunSync(script: seq<Phase>, p: LiveProgress)
    returns (s: Pump, ghost run: seq<Action>, ghost plansAt: seq<map<string, DBPlan>>, ghost shown: Option<nat>)
    requires p.Valid()
    modifies p
    ensures p.Valid() && Inv(s) && Finished(s) && s.script == script && s.delivered <= s.accepted
    ensures Exec(Start(script), run) == Some(s)
    ensures forall i :: 0 <= i < |s.delivered| ==> InScript(script, s.delivered[i])
    ensures p.history == old(p.history) + EventsOf(script, s.delivered)
    // Every plan that was handed over is registered, and each database is shown with its plan.
    ensures PlansFollow(script, s.delivered, old(p.PlannedNow()), plansAt, shown, p.PlannedNow())
  {
    hide Inv, WorkLeft, Enabled, Next, LiveProgress.Valid, EventsOf, Placed, Head, Exec, PlansFollow, MessageMoves, InScript;
    s, run, plansAt, shown := Start(script), [], [], None;
    NoPlansYet(script, p.PlannedNow());
    InvStart(script);
    ExecNone(s);
    DeliveredInScript(s);
    NoEvents(script);
    while !Finished(s)
      invariant p.Valid() && Inv(s) && s.script == script && Placed(s) && Placed(Start(script))
      invariant Exec(Start(script), run) == Some(s)
      invariant forall i :: 0 <= i < |s.delivered| ==> InScript(script, s.delivered[i])
      invariant p.history == old(p.history) + EventsOf(script, s.delivered)
      invariant PlansFollow(script, s.delivered, old(p.PlannedNow()), plansAt, shown, p.PlannedNow())
      decreases WorkLeft(s)
    {
      ghost var possible := NeverStuck(s);
      var a :| Enabled(s, a);
      DeliveredInScript(s);
      InvNext(s, a);
      WorkDecreases(s, a);
      Deliveries(s, a);
      if a.Update? && s.inbox[0].Message? {
        ghost var was, o := p.PlannedNow(), s.inbox[0].origin;
        EventsAppend(script, s.delivered, o);
        Handle(p, SendAt(script, s.inbox[0].origin).msg);
        OneMoreMessage(script, s.delivered, o, old(p.PlannedNow()), plansAt, shown, was, p.PlannedNow());
        plansAt, shown := plansAt + [was.dbPlans], ShownAfter(was.database, SendAt(script, o).msg, shown, |s.delivered|);
      }
      ExecAppend(Start(script), run, a);
      s, run := Next(s, a), run + [a];
    }
    DeliveredInScript(s);
  }

  predicate AtMost(a: Tally, b: Tally) {
    a.tables <= b.tables && a.rows <= b.rows && a.bytes <= b.bytes
  }

  /** A dashboard that missed the last messages undercounts; it never overcounts. */
  lemma {:induction false} NeverOvercounts(script: seq<Phase>, shown: seq<Origin>, sent: seq<Origin>)
    requires shown <= sent && forall i :: 0 <= i < |sent| ==> InScript(script, sent[i])
    ensures AtMost(DoneTally(EventsOf(script, shown)), DoneTally(EventsOf(script, sent)))
    decreases |sent|
  {
    hide DoneTally, DoneTallyOf, EventsOf;
    if |shown| < |sent| {
      var init, last := sent[..|sent| - 1], sent[|sent| - 1];
      NeverOvercounts(script, shown, init);
      EventsAppend(script, init, last);
      assert init + [last] == sent;
      match SendAt(script, last).msg {
        case Progress(e) => DoneTallyAppend(EventsOf(script, init), e);
        case PlanReady(_, _, _, _) => assert EventsOf(script, init) + [] == EventsOf(script, init);
      }
    } else {
      assert shown == sent;
    }
  }

  lemma NoEvents(script: seq<Phase>)
    ensures EventsOf(script, []) == []
  {
  }

  lemma Deliveries(s: Pump, a: Action)
    requires Placed(s) && Enabled(s, a)
    ensures a.Update? ==> s.inbox != []
    ensures Next(s, a).delivered == if a.Update? && s.inbox[0].Message? then s.delivered + [s.inbox[0].origin] else s.delivered
    ensures Placed(Next(s, a)) && Next(s, a).script == s.script
  {
    PlacedNext(s, a);
  }
}
