/** The events an engine run shows its observer (engine/events.go, native/native.go). */
module Events {
  import opened Tallies

  datatype Stage =
    | Snapshot | DumpPreData | CheckExtensions | ResetTarget | ConnectTarget
    | ApplyPreData | CopyTables | DumpPostData | ApplyPostData | RepairSequences

  const STAGES := [Snapshot, DumpPreData, CheckExtensions, ResetTarget, ConnectTarget,
                   ApplyPreData, CopyTables, DumpPostData, ApplyPostData, RepairSequences]

  datatype EventName =
    | SyncStart | SyncDone | SyncFailed
    | StageStart(stage: Stage) | StageDone(stage: Stage) | StageFailed(stage: Stage)
    | TableCopyStart | TableCopyProgress | TableCopyDone

  /** Lifecycle events carry the database; table events carry the table and leave the database to the observer. */
  datatype Event = Event(
    name: EventName, database: string, table: string,
    rows: nat, estimated: nat, bytes: nat, percent: real)

  predicate IsTableEvent(e: Event) {
    e.name.TableCopyStart? || e.name.TableCopyProgress? || e.name.TableCopyDone?
  }

  /** The lifecycle events of a trace, in order. */
  function Skeleton(trace: seq<Event>): seq<EventName> {
    if trace == [] then []
    else
      var before := Skeleton(trace[..|trace| - 1]);
      var last := trace[|trace| - 1];
      if IsTableEvent(last) then before else before + [last.name]
  }

  lemma SkeletonAppend(trace: seq<Event>, e: Event)
    ensures Skeleton(trace + [e]) == if IsTableEvent(e) then Skeleton(trace) else Skeleton(trace) + [e.name]
  {
    assert (trace + [e])[..|trace|] == trace;
  }

  /** The table events of a trace, in order. */
  function TableEventsOf(trace: seq<Event>): seq<Event> {
    if trace == [] then []
    else
      var before := TableEventsOf(trace[..|trace| - 1]);
      var last := trace[|trace| - 1];
      if IsTableEvent(last) then before + [last] else before
  }

  lemma TableEventsAppend(trace: seq<Event>, e: Event)
    ensures TableEventsOf(trace + [e]) == if IsTableEvent(e) then TableEventsOf(trace) + [e] else TableEventsOf(trace)
  {
    assert (trace + [e])[..|trace|] == trace;
  }

  /** A table event comes only while the copy stage is running: the last lifecycle event before it started that stage. */
  ghost predicate TableEventsInCopy(trace: seq<Event>) {
    forall i :: 0 <= i < |trace| && IsTableEvent(trace[i]) ==> Copying(trace[..i])
  }

  ghost predicate Copying(before: seq<Event>) {
    Skeleton(before) != [] && Skeleton(before)[|Skeleton(before)| - 1] == StageStart(CopyTables)
  }

  function DoneTallyOf(e: Event): Tally {
    if e.name.TableCopyDone? then Tally(1, e.rows, e.bytes) else ZERO
  }

  function EventTallies(trace: seq<Event>): seq<Tally> {
    seq(|trace|, i requires 0 <= i < |trace| => DoneTallyOf(trace[i]))
  }

  /** Tables, rows and bytes reported as done in a trace. */
  function DoneTally(trace: seq<Event>): Tally {
    Sum(EventTallies(trace))
  }

  lemma DoneTallyConcat(a: seq<Event>, b: seq<Event>)
    ensures DoneTally(a + b) == Plus(DoneTally(a), DoneTally(b))
  {
    hide Sum, Plus;
    assert EventTallies(a + b) == EventTallies(a) + EventTallies(b);
    SumConcat(EventTallies(a), EventTallies(b));
  }

  lemma DoneTallyOfOther(trace: seq<Event>, e: Event)
    requires !e.name.TableCopyDone?
    ensures DoneTally(trace + [e]) == DoneTally(trace)
  {
    hide Sum, Plus;
    assert EventTallies(trace + [e]) == EventTallies(trace) + [ZERO];
    SumAppend(EventTallies(trace), ZERO);
    PlusZero(DoneTally(trace));
  }

  // ---------- the grammar of a run ----------

  /** start and done of the first `k` stages. */
  function DonePairs(k: nat): seq<EventName>
    requires k <= |STAGES|
  {
    if k == 0 then [] else DonePairs(k - 1) + [StageStart(STAGES[k - 1]), StageDone(STAGES[k - 1])]
  }

  function FirstStages(k: nat): set<Stage>
    requires k <= |STAGES|
  {
    set i | 0 <= i < k :: STAGES[i]
  }

  /** At most one stage was started and failed after the done ones. */
  predicate FailedTail(k: nat, tail: seq<EventName>)
    requires k <= |STAGES|
  {
    tail == [] || (k < |STAGES| && tail == [StageStart(STAGES[k]), StageFailed(STAGES[k])])
  }

  /** `k` stages were done and then the run ended, well or badly. */
  predicate EndsAfter(names: seq<EventName>, k: nat, tail: seq<EventName>, ok: bool)
    requires k <= |STAGES|
  {
    if ok then k == |STAGES| && tail == [] && names == [SyncStart] + DonePairs(k) + [SyncDone]
    else FailedTail(k, tail) && names == [SyncStart] + DonePairs(k) + tail + [SyncFailed]
  }

  ghost predicate RunGrammar(names: seq<EventName>, done: set<Stage>, ok: bool, dryRun: bool) {
    if dryRun then ok && done == {} && names == [SyncStart, SyncDone]
    else exists k: nat, tail :: k <= |STAGES| && done == FirstStages(k) && EndsAfter(names, k, tail, ok)
  }

  lemma {:induction false} DonePairsAt(k: nat, m: nat)
    requires m < k <= |STAGES|
    ensures |DonePairs(k)| == 2 * k
    ensures DonePairs(k)[2 * m] == StageStart(STAGES[m]) && DonePairs(k)[2 * m + 1] == StageDone(STAGES[m])
  {
    if m < k - 1 {
      DonePairsAt(k - 1, m);
    }
    DonePairsSize(k);
    DonePairsSize(k - 1);
  }

  lemma {:induction false} DonePairsSize(k: nat)
    requires k <= |STAGES|
    ensures |DonePairs(k)| == 2 * k
  {
    if k > 0 {
      DonePairsSize(k - 1);
    }
  }

  lemma StagesDistinct(a: nat, b: nat)
    requires a < |STAGES| && b < |STAGES| && STAGES[a] == STAGES[b]
    ensures a == b
  {
  }

  /** Where the start of a stage is in a run, and what stands before it. */
  lemma StartPosition(names: seq<EventName>, k: nat, tail: seq<EventName>, ok: bool, i: nat, m: nat)
    requires k <= |STAGES| && EndsAfter(names, k, tail, ok)
    requires i < |names| && m < |STAGES| && names[i] == StageStart(STAGES[m])
    ensures i == 1 + 2 * m && m <= k
  {
    hide DonePairs;
    DonePairsSize(k);
    var p := i - 1;
    assert names[0] == SyncStart;
    if p < 2 * k {
      assert names[i] == DonePairs(k)[p];
      DonePairsAt(k, p / 2);
      StagesDistinct(p / 2, m);
    } else {
      assert names[i] == (tail + [if ok then SyncDone else SyncFailed])[p - 2 * k];
      StagesDistinct(k, m);
    }
  }

  /** No stage starts before every earlier stage is done; in particular the target is never reset
      before the snapshot, the schema dump and the extension check have succeeded. */
  lemma EarlierStagesDone(names: seq<EventName>, done: set<Stage>, ok: bool, dryRun: bool, i: nat, m: nat, earlier: nat)
    requires RunGrammar(names, done, ok, dryRun)
    requires i < |names| && earlier < m < |STAGES| && names[i] == StageStart(STAGES[m])
    ensures exists j :: 0 <= j < i && names[j] == StageDone(STAGES[earlier])
  {
    hide DonePairs, FirstStages;
    assert !dryRun;
    var k: nat, tail :| k <= |STAGES| && done == FirstStages(k) && EndsAfter(names, k, tail, ok);
    StartPosition(names, k, tail, ok, i, m);
    DonePairsSize(k);
    DonePairsAt(k, earlier);
    assert names[1 + (2 * earlier + 1)] == DonePairs(k)[2 * earlier + 1];
  }

  lemma ResetIsGuarded(names: seq<EventName>, done: set<Stage>, ok: bool, dryRun: bool, i: nat)
    requires RunGrammar(names, done, ok, dryRun)
    requires i < |names| && names[i] == StageStart(ResetTarget)
    ensures StageDone(Snapshot) in names[..i] && StageDone(DumpPreData) in names[..i] && StageDone(CheckExtensions) in names[..i]
  {
    EarlierStagesDone(names, done, ok, dryRun, i, 3, 0);
    EarlierStagesDone(names, done, ok, dryRun, i, 3, 1);
    EarlierStagesDone(names, done, ok, dryRun, i, 3, 2);
    forall e | e in [StageDone(Snapshot), StageDone(DumpPreData), StageDone(CheckExtensions)] ensures e in names[..i] {
      var j :| 0 <= j < i && names[j] == e;
      assert names[..i][j] == e;
    }
    assert [StageDone(Snapshot), StageDone(DumpPreData), StageDone(CheckExtensions)][0] == StageDone(Snapshot);
    assert [StageDone(Snapshot), StageDone(DumpPreData), StageDone(CheckExtensions)][1] == StageDone(DumpPreData);
    assert [StageDone(Snapshot), StageDone(DumpPreData), StageDone(CheckExtensions)][2] == StageDone(CheckExtensions);
  }
}
