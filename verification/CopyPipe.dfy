/** One table copy: a source goroutine and a target goroutine joined by an unbuffered pipe,
    and the caller that waits for both (native/copy.go, CopyTable). The goroutines are
    actors of a state machine; a run is any sequence of enabled actions. */
module CopyPipe {
  import opened Models
  import opened Quoting
  import opened JobEvents

  type Bytes = seq<bv8>

  /** copyTableSource: adopt the snapshot, stream, close the writer, roll back and close, report. */
  datatype Source =
    | Snapshotting
    | Streaming
    | Writing
    | ClosingWriter(failed: bool)
    | CleaningUp(failed: bool)
    | SourceDone(streamFailed: bool, cleanupFailed: bool)

  /** copyTableTarget: CopyFrom reads through the progress reader, then reports. */
  datatype Target =
    | Starting
    | Reading
    | ClosingReader
    | TargetDone(ok: bool)

  datatype Writer = WriterOpen | WriterClosed(eof: bool)

  datatype Caller = AwaitTarget | AwaitSource(targetOk: bool) | Returned(ok: bool)

  datatype Copy = Copy(
    chunks: seq<Bytes>,   // what the source server sends
    source: Source,
    sent: nat,            // chunks whose Write has returned
    taken: nat,           // bytes of the current chunk the reader took
    touched: bool,        // the current Write has been met by a read
    target: Target,
    got: Bytes,           // bytes that passed the progress reader
    sawEof: bool,
    sawError: bool,
    writer: Writer,
    readerClosed: bool,
    cancelled: bool,
    caller: Caller,
    rows: nat,
    sourceCloses: nat,
    events: seq<JobEvent>
  )

  datatype Action =
    | SnapshotApplied(ok: bool)
    | OfferChunk
    | ChunkWritten
    | WriteFails
    | StreamEnds
    | StreamFails
    | CloseWriter
    | CleanUp(ok: bool)
    | StartReading
    | ReadSome(n: nat, emits: bool)
    | ReadEof
    | ReadError
    | CopyFromReturns(ok: bool, count: nat)
    | CloseReader
    | TakeTargetResult
    | TakeSourceResult
    | OuterCancel

  function Start(chunks: seq<Bytes>): Copy {
    Copy(chunks, Snapshotting, 0, 0, false, Starting, [], false, false, WriterOpen, false, false, AwaitTarget, 0, 0, [CopyStart])
  }

  /** A read can go on until it has reported the end or an error. */
  predicate CanRead(s: Copy) {
    s.target.Reading? && !s.sawEof && !s.sawError
  }

  /** CopyFrom returns nil only after it has read EOF; it may fail at any time. */
  predicate Enabled(s: Copy, a: Action) {
    match a
    case SnapshotApplied(ok) => s.source.Snapshotting?
    case OfferChunk => s.source.Streaming? && s.sent < |s.chunks|
    case ChunkWritten => s.source.Writing? && s.touched && s.sent < |s.chunks| && s.taken == |s.chunks[s.sent]|
    case WriteFails => s.source.Writing? && s.readerClosed
    case StreamEnds => s.source.Streaming? && s.sent == |s.chunks|
    case StreamFails => s.source.Streaming?
    case CloseWriter => s.source.ClosingWriter?
    case CleanUp(ok) => s.source.CleaningUp?
    case StartReading => s.target.Starting?
    case ReadSome(n, emits) =>
      && CanRead(s) && s.source.Writing? && !s.readerClosed && s.sent < |s.chunks|
      && s.taken + n <= |s.chunks[s.sent]| && (n > 0 || (s.chunks[s.sent] == [] && !s.touched && !emits))
    case ReadEof => CanRead(s) && s.writer == WriterClosed(true)
    case ReadError => CanRead(s) && s.writer == WriterClosed(false)
    case CopyFromReturns(ok, count) => s.target.Reading? && (ok ==> s.sawEof)
    case CloseReader => s.target.ClosingReader?
    case TakeTargetResult => s.caller.AwaitTarget? && s.target.TargetDone?
    case TakeSourceResult => s.caller.AwaitSource? && s.source.SourceDone?
    case OuterCancel => !s.cancelled
  }

  function Next(s: Copy, a: Action): (t: Copy)
    requires Enabled(s, a)
    ensures t.chunks == s.chunks
  {
    match a
    case SnapshotApplied(ok) => s.(source := if ok then Streaming else ClosingWriter(true))
    case OfferChunk => s.(source := Writing, taken := 0, touched := false)
    case ChunkWritten => s.(source := Streaming, sent := s.sent + 1, taken := 0, touched := false)
    case WriteFails => s.(source := ClosingWriter(true))
    case StreamEnds => s.(source := ClosingWriter(false))
    case StreamFails => s.(source := ClosingWriter(true))
    case CloseWriter => s.(writer := WriterClosed(!s.source.failed), source := CleaningUp(s.source.failed))
    case CleanUp(ok) => s.(source := SourceDone(s.source.failed, !ok), sourceCloses := s.sourceCloses + 1)
    case StartReading => s.(target := Reading, events := s.events + [CopyProgress(0)])
    case ReadSome(n, emits) =>
      var got := s.got + s.chunks[s.sent][s.taken..s.taken + n];
      s.(got := got, taken := s.taken + n, touched := true,
         events := if emits then s.events + [CopyProgress(|got|)] else s.events)
    case ReadEof => s.(sawEof := true, events := s.events + [CopyProgress(|s.got|)])
    case ReadError => s.(sawError := true, events := s.events + [CopyProgress(|s.got|)])
    case CopyFromReturns(ok, count) => s.(rows := count, target := if ok then TargetDone(true) else ClosingReader)
    case CloseReader => s.(readerClosed := true, target := TargetDone(false))
    case TakeTargetResult =>
      var ok := s.target.ok;
      s.(caller := AwaitSource(ok), cancelled := s.cancelled || !ok, readerClosed := s.readerClosed || !ok)
    case TakeSourceResult =>
      var ok := s.caller.targetOk && !s.source.streamFailed && !s.source.cleanupFailed;
      s.(caller := Returned(ok), events := if ok then s.events + [CopyDone(|s.got|, s.rows)] else s.events)
    case OuterCancel => s.(cancelled := true)
  }

  // ---------- what every step keeps ----------

  function Flatten(chunks: seq<Bytes>): Bytes {
    if chunks == [] then [] else Flatten(chunks[..|chunks| - 1]) + chunks[|chunks| - 1]
  }

  /** The bytes the source has handed over, in order. */
  function Delivered(s: Copy): Bytes
    requires s.sent <= |s.chunks| && (s.sent < |s.chunks| ==> s.taken <= |s.chunks[s.sent]|)
  {
    Flatten(s.chunks[..s.sent]) + if s.sent < |s.chunks| then s.chunks[s.sent][..s.taken] else []
  }

  /** No byte is lost, repeated or reordered. */
  ghost predicate DataInv(s: Copy) {
    && s.sent <= |s.chunks| && (s.sent < |s.chunks| ==> s.taken <= |s.chunks[s.sent]|)
    && s.got == Delivered(s)
    && (s.source.Snapshotting? || s.source.Streaming? ==> s.taken == 0)
    && (s.source.Writing? ==> s.sent < |s.chunks| && (!s.touched ==> s.taken == 0))
    && (StreamOk(s.source) ==> s.sent == |s.chunks|)
  }

  /** Who may believe what about the other ends of the pipe. */
  ghost predicate ProtocolInv(s: Copy) {
    // The writer says EOF only after a stream that ended.
    && (s.writer.WriterClosed? <==> s.source.CleaningUp? || s.source.SourceDone?)
    && (s.writer.WriterClosed? ==> s.writer.eof == StreamOk(s.source))
    // The reader knows only what the writer said.
    && (s.sawEof ==> s.writer == WriterClosed(true)) && (s.sawError ==> s.writer == WriterClosed(false))
    && (s.target == TargetDone(true) ==> s.sawEof)
    && (s.target == TargetDone(false) <==> s.readerClosed)
    && (s.target.Starting? ==> !s.sawEof && !s.sawError)
    // The caller knows only what the goroutines reported.
    && (s.caller.AwaitTarget? || s.target.TargetDone?)
    && (s.caller.AwaitSource? ==> s.target == TargetDone(s.caller.targetOk))
    && (s.caller.Returned? ==>
          s.source.SourceDone? && (s.caller.ok <==> s.target.ok && !s.source.streamFailed && !s.source.cleanupFailed))
    // The source connection is closed once, by clean-up.
    && s.sourceCloses == (if s.source.SourceDone? then 1 else 0)
  }

  ghost predicate EventInv(s: Copy) {
    && (s.target.Starting? ==> s.got == [] && s.events == [CopyStart] && s.caller.AwaitTarget?)
    && (s.caller == Returned(true) ==> CompleteJob(s.events, |s.got|, s.rows))
    && (s.caller != Returned(true) ==> InFlight(s.events, |s.got|))
    && (s.target.Starting? || |s.events| > 1)
    && (s.sawEof && s.caller != Returned(true) ==> LastProgress(s.events, |s.got|))
  }

  ghost predicate Inv(s: Copy) {
    DataInv(s) && ProtocolInv(s) && EventInv(s)
  }

  predicate StreamOk(source: Source) {
    match source
    case ClosingWriter(failed) => !failed
    case CleaningUp(failed) => !failed
    case SourceDone(failed, _) => !failed
    case _ => false
  }

  lemma InvStart(chunks: seq<Bytes>)
    ensures Inv(Start(chunks))
  {
    assert chunks[..0] == [];
    if chunks != [] { assert chunks[0][..0] == []; }
  }

  lemma FlattenNext(chunks: seq<Bytes>, k: nat)
    requires k < |chunks|
    ensures Flatten(chunks[..k + 1]) == Flatten(chunks[..k]) + chunks[k]
  {
    assert chunks[..k + 1][..k] == chunks[..k];
  }

  lemma ChunkFinished(s: Copy)
    requires DataInv(s) && Enabled(s, ChunkWritten)
    ensures DataInv(Next(s, ChunkWritten))
  {
    var t := Next(s, ChunkWritten);
    FlattenNext(s.chunks, s.sent);
    assert s.chunks[s.sent][..s.taken] == s.chunks[s.sent];
    hide Flatten;
    assert t.sent < |t.chunks| ==> t.chunks[t.sent][..0] == [];
    assert Delivered(t) == Flatten(s.chunks[..s.sent + 1]) + [];
  }

  lemma SplitChunk(before: Bytes, chunk: Bytes, taken: nat, n: nat)
    requires taken + n <= |chunk|
    ensures before + chunk[..taken] + chunk[taken..taken + n] == before + chunk[..taken + n]
  {
    assert chunk[..taken] + chunk[taken..taken + n] == chunk[..taken + n];
  }

  lemma SomeRead(s: Copy, n: nat, emits: bool)
    requires DataInv(s) && Enabled(s, ReadSome(n, emits))
    ensures DataInv(Next(s, ReadSome(n, emits)))
  {
    hide Flatten, CanRead;
    var chunk, before := s.chunks[s.sent], Flatten(s.chunks[..s.sent]);
    SplitChunk(before, chunk, s.taken, n);
    assert Next(s, ReadSome(n, emits)).got == s.got + chunk[s.taken..s.taken + n];
  }

  lemma DataNext(s: Copy, a: Action)
    requires DataInv(s) && Enabled(s, a)
    ensures DataInv(Next(s, a))
  {
    hide Flatten;
    match a {
      case ChunkWritten => ChunkFinished(s);
      case ReadSome(n, emits) => SomeRead(s, n, emits);
      case _ =>
        var t := Next(s, a);
        assert t.got == s.got && t.sent == s.sent && t.chunks == s.chunks && t.taken == s.taken;
    }
  }

  lemma ProtocolNext(s: Copy, a: Action)
    requires DataInv(s) && ProtocolInv(s) && Enabled(s, a)
    ensures ProtocolInv(Next(s, a))
  {
    hide DataInv, ProtocolInv, Enabled, Next;
    if SourceAction(a) {
      ProtocolSource(s, a);
    } else if TargetAction(a) {
      ProtocolTarget(s, a);
    } else {
      ProtocolCaller(s, a);
    }
  }

  predicate SourceAction(a: Action) {
    a.SnapshotApplied? || a.OfferChunk? || a.ChunkWritten? || a.WriteFails? || a.StreamEnds? || a.StreamFails? || a.CloseWriter? || a.CleanUp?
  }

  predicate TargetAction(a: Action) {
    a.StartReading? || a.ReadSome? || a.ReadEof? || a.ReadError? || a.CopyFromReturns? || a.CloseReader?
  }

  lemma ProtocolSource(s: Copy, a: Action)
    requires ProtocolInv(s) && Enabled(s, a) && SourceAction(a)
    ensures ProtocolInv(Next(s, a))
  {
    hide CanRead;
    match a {
      case SnapshotApplied(_) =>
      case OfferChunk =>
      case ChunkWritten =>
      case WriteFails =>
      case StreamEnds =>
      case StreamFails =>
      case CloseWriter =>
      case CleanUp(_) =>
    }
  }

  lemma ProtocolTarget(s: Copy, a: Action)
    requires ProtocolInv(s) && Enabled(s, a) && TargetAction(a)
    ensures ProtocolInv(Next(s, a))
  {
    match a {
      case StartReading =>
      case ReadSome(_, _) =>
      case ReadEof =>
      case ReadError =>
      case CopyFromReturns(_, _) =>
      case CloseReader =>
    }
  }

  lemma ProtocolCaller(s: Copy, a: Action)
    requires ProtocolInv(s) && Enabled(s, a) && !SourceAction(a) && !TargetAction(a)
    ensures ProtocolInv(Next(s, a))
  {
    hide CanRead;
  }

  lemma EventNext(s: Copy, a: Action)
    requires ProtocolInv(s) && EventInv(s) && Enabled(s, a)
    ensures EventInv(Next(s, a))
  {
    var t := Next(s, a);
    hide Delivered, Flatten;
    match a {
      case StartReading => FlightGrows(s.events, |s.got|, 0);
      case ReadSome(_, _) => FlightGrows(s.events, |s.got|, |t.got|);
      case ReadEof => FlightGrows(s.events, |s.got|, |s.got|);
      case ReadError => FlightGrows(s.events, |s.got|, |s.got|);
      case TakeSourceResult =>
        if t.caller.ok {
          assert t.events[..|t.events| - 1] == s.events;
        }
      case _ =>
        assert t.events == s.events && t.got == s.got;
    }
  }

  lemma InvNext(s: Copy, a: Action)
    requires Inv(s) && Enabled(s, a)
    ensures Inv(Next(s, a))
  {
    hide DataInv, ProtocolInv, EventInv, Enabled, Next;
    DataNext(s, a);
    ProtocolNext(s, a);
    EventNext(s, a);
  }

  // ---------- termination ----------

  function Pending(chunks: seq<Bytes>, from: nat): nat
    requires from <= |chunks|
    decreases |chunks| - from
  {
    if from == |chunks| then 0 else |chunks[from]| + 3 + Pending(chunks, from + 1)
  }

  function SourceWork(s: Copy): nat
    requires DataInv(s)
  {
    match s.source
    case Snapshotting => 6 + Pending(s.chunks, s.sent)
    case Streaming => 5 + Pending(s.chunks, s.sent)
    case Writing => 5 + Pending(s.chunks, s.sent + 1) + (|s.chunks[s.sent]| - s.taken) + (if s.touched then 1 else 2)
    case ClosingWriter(_) => 3
    case CleaningUp(_) => 2
    case SourceDone(_, _) => 0
  }

  function TargetWork(s: Copy): nat {
    match s.target
    case Starting => 6
    case Reading => if s.sawEof || s.sawError then 4 else 5
    case ClosingReader => 2
    case TargetDone(_) => 0
  }

  /** The work left. Every action of every actor lowers it, so no schedule runs forever. */
  function Work(s: Copy): nat
    requires DataInv(s)
  {
    SourceWork(s) + TargetWork(s)
    + (match s.caller case AwaitTarget => 2 case AwaitSource(_) => 1 case Returned(_) => 0)
    + if s.cancelled then 0 else 1
  }

  /** The steps that move the stream on. */
  lemma ChunkStepLowersWork(s: Copy, a: Action)
    requires DataInv(s) && Enabled(s, a) && DataInv(Next(s, a)) && (a.OfferChunk? || a.ChunkWritten? || a.ReadSome?)
    ensures Work(Next(s, a)) < Work(s)
  {
    hide Delivered, Flatten;
  }

  /** The steps that leave the stream where it is. */
  lemma OtherStepLowersWork(s: Copy, a: Action)
    requires Inv(s) && Enabled(s, a) && DataInv(Next(s, a)) && !a.OfferChunk? && !a.ChunkWritten? && !a.ReadSome?
    ensures Work(Next(s, a)) < Work(s)
  {
    hide EventInv, Delivered, Flatten, Pending;
  }

  lemma WorkDecreases(s: Copy, a: Action)
    requires Inv(s) && Enabled(s, a)
    ensures Inv(Next(s, a)) && Work(Next(s, a)) < Work(s)
  {
    hide EventInv, ProtocolInv, DataInv, Enabled, Next, Work;
    InvNext(s, a);
    if a.OfferChunk? || a.ChunkWritten? || a.ReadSome? {
      ChunkStepLowersWork(s, a);
    } else {
      OtherStepLowersWork(s, a);
    }
  }

  // ---------- no hang ----------

  /** Actions that happen without anything failing or being cancelled from outside: a read that was
      told the stream is over returns, and a failed read makes CopyFrom fail. */
  predicate Forced(s: Copy, a: Action) {
    && Enabled(s, a)
    && !a.StreamFails? && !a.OuterCancel?
    && (a.CopyFromReturns? ==> s.sawError || s.sawEof)
  }

  /** Until the caller has its answer somebody can move, even if nothing ever fails by itself. */
  lemma NeverStuck(s: Copy) returns (a: Action)
    requires Inv(s) && !s.caller.Returned?
    ensures Forced(s, a)
  {
    match s.source {
      case Snapshotting => a := SnapshotApplied(true);
      case Streaming => a := if s.sent < |s.chunks| then OfferChunk else StreamEnds;
      case ClosingWriter(_) => a := CloseWriter;
      case CleaningUp(_) => a := CleanUp(true);
      case _ =>
        if s.target.Starting? {
          a := StartReading;
        } else if s.target.ClosingReader? {
          a := CloseReader;
        } else if s.target.TargetDone? {
          a := TargetReported(s);
        } else {
          a := ReaderMoves(s);
        }
    }
  }

  lemma TargetReported(s: Copy) returns (a: Action)
    requires Inv(s) && !s.caller.Returned? && s.target.TargetDone? && (s.source.Writing? || s.source.SourceDone?)
    ensures Forced(s, a)
  {
    if s.caller.AwaitTarget? {
      a := TakeTargetResult;
    } else if s.source.SourceDone? {
      a := TakeSourceResult;
    } else {
      // A target that ended well had seen EOF, so a source still writing means it failed
      // and its end of the pipe is closed.
      a := WriteFails;
    }
  }

  lemma ReaderMoves(s: Copy) returns (a: Action)
    requires Inv(s) && s.target.Reading? && (s.source.Writing? || s.source.SourceDone?)
    ensures Forced(s, a)
  {
    if s.sawEof || s.sawError {
      a := CopyFromReturns(s.sawEof, 0);
    } else if s.source.SourceDone? {
      a := if s.writer.eof then ReadEof else ReadError;
    } else if s.touched && s.taken == |s.chunks[s.sent]| {
      a := ChunkWritten;
    } else if s.readerClosed {
      a := WriteFails;
    } else {
      a := ReadSome(|s.chunks[s.sent]| - s.taken, false);
    }
  }

  // ---------- runs ----------

  /** The state after a run, if every action is enabled when its turn comes. */
  function Exec(s: Copy, run: seq<Action>): Option<Copy>
    decreases |run|
  {
    if run == [] then Some(s)
    else if Enabled(s, run[0]) then Exec(Next(s, run[0]), run[1..])
    else None
  }

  lemma {:induction false} ExecAppend(s: Copy, run: seq<Action>, a: Action)
    requires Exec(s, run).Some? && Enabled(Exec(s, run).value, a)
    ensures Exec(s, run + [a]) == Some(Next(Exec(s, run).value, a))
    decreases |run|
  {
    hide Enabled, Next;
    if run == [] {
      assert [] + [a] == [a] && [a][1..] == [];
    } else {
      ExecAppend(Next(s, run[0]), run[1..], a);
      assert (run + [a])[1..] == run[1..] + [a];
    }
  }

  // ---------- when a copy fails ----------

  /** A call of a server goes wrong. */
  predicate Fault(a: Action) {
    match a
    case SnapshotApplied(ok) => !ok
    case StreamFails => true
    case CleanUp(ok) => !ok
    case CopyFromReturns(ok, _) => !ok
    case _ => false
  }

  ghost predicate HasFault(run: seq<Action>) {
    exists i :: 0 <= i < |run| && Fault(run[i])
  }

  /** One of the goroutines, or already the caller, has an error. */
  predicate Troubled(s: Copy) {
    || (s.source.ClosingWriter? && s.source.failed) || (s.source.CleaningUp? && s.source.failed)
    || (s.source.SourceDone? && (s.source.streamFailed || s.source.cleanupFailed))
    || s.target.ClosingReader? || s.target == TargetDone(false)
  }

  /** Only a fault makes an error, and every fault does: a write fails only when the target has failed,
      and cancelling acts through the calls that it makes fail. */
  lemma TroubledNext(s: Copy, a: Action)
    requires ProtocolInv(s) && Enabled(s, a)
    ensures Troubled(Next(s, a)) <==> Troubled(s) || Fault(a)
  {
    hide CanRead;
  }

  lemma {:induction false} TroubledRun(s: Copy, run: seq<Action>)
    requires Inv(s) && Exec(s, run).Some?
    ensures Inv(Exec(s, run).value)
    ensures Troubled(Exec(s, run).value) <==> Troubled(s) || HasFault(run)
    decreases |run|
  {
    hide DataInv, ProtocolInv, EventInv, Enabled, Next, Troubled, Fault;
    if run != [] {
      InvNext(s, run[0]);
      TroubledNext(s, run[0]);
      TroubledRun(Next(s, run[0]), run[1..]);
      FaultsOfRest(run);
    }
  }

  lemma FaultsOfRest(run: seq<Action>)
    requires run != []
    ensures HasFault(run) <==> Fault(run[0]) || HasFault(run[1..])
  {
    hide Fault;
    if HasFault(run[1..]) {
      var i :| 0 <= i < |run[1..]| && Fault(run[1..][i]);
      assert Fault(run[i + 1]);
    }
    if HasFault(run) && !Fault(run[0]) {
      var i :| 0 <= i < |run| && Fault(run[i]);
      assert Fault(run[1..][i - 1]);
    }
  }

  /** Exactly when a copy fails: some server call in its run does. */
  lemma WhenCopyFails(chunks: seq<Bytes>, run: seq<Action>)
    requires Exec(Start(chunks), run).Some? && Exec(Start(chunks), run).value.caller.Returned?
    ensures Exec(Start(chunks), run).value.caller.ok <==> !HasFault(run)
  {
    hide Exec, DataInv, EventInv, HasFault;
    InvStart(chunks);
    TroubledRun(Start(chunks), run);
  }

  // ---------- the row count ----------

  /** CopyFrom has returned. */
  predicate Settled(s: Copy) {
    s.target.ClosingReader? || s.target.TargetDone?
  }

  /** CopyFrom returned once in this run, with this many rows. */
  ghost predicate ReturnsWith(run: seq<Action>, i: nat, rows: nat) {
    && i < |run| && run[i].CopyFromReturns? && run[i].count == rows
    && forall j :: 0 <= j < |run| && j != i ==> !run[j].CopyFromReturns?
  }

  lemma RowsNext(s: Copy, a: Action)
    requires Enabled(s, a)
    ensures a.CopyFromReturns? ==> !Settled(s) && Settled(Next(s, a)) && Next(s, a).rows == a.count
    ensures !a.CopyFromReturns? ==> Settled(Next(s, a)) == Settled(s) && Next(s, a).rows == s.rows
  {
  }

  /** The rows are those of the one return of CopyFrom. */
  lemma {:induction false} RowsOfRun(s: Copy, run: seq<Action>)
    requires Exec(s, run).Some?
    ensures var t := Exec(s, run).value;
      && (Settled(s) ==> Settled(t) && t.rows == s.rows && forall j :: 0 <= j < |run| ==> !run[j].CopyFromReturns?)
      && (!Settled(s) && Settled(t) ==> exists i: nat :: ReturnsWith(run, i, t.rows))
    decreases |run|
  {
    hide Enabled, Next, Settled;
    if run != [] {
      var rest := run[1..];
      RowsNext(s, run[0]);
      RowsOfRun(Next(s, run[0]), rest);
      var t := Exec(s, run).value;
      assert forall j :: 0 < j < |run| ==> run[j] == rest[j - 1];
      if !Settled(s) && Settled(t) {
        if run[0].CopyFromReturns? {
          assert ReturnsWith(run, 0, t.rows);
        } else {
          var i: nat :| ReturnsWith(rest, i, t.rows);
          assert ReturnsWith(run, i + 1, t.rows);
        }
      }
    }
  }

  lemma RowsReturned(chunks: seq<Bytes>, run: seq<Action>)
    requires Exec(Start(chunks), run).Some? && Exec(Start(chunks), run).value.caller.Returned?
    ensures exists i: nat :: ReturnsWith(run, i, Exec(Start(chunks), run).value.rows)
  {
    hide Exec, DataInv, EventInv, HasFault;
    InvStart(chunks);
    TroubledRun(Start(chunks), run);
    RowsOfRun(Start(chunks), run);
  }

  // ---------- the call ----------

  datatype Outcome = Outcome(ok: bool, bytes: nat, rows: nat, events: seq<JobEvent>, sourceCloses: nat)

  /** CopyTable, for a table whose name quoting accepts or not, any stream and any schedule.
      The loop ends, so the call never hangs. */
  method CopyTable(table: Table, chunks: seq<Bytes>) returns (r: Outcome, ghost received: Bytes, ghost run: seq<Action>)
    // A name that cannot be quoted fails before anything starts, and leaves the source open.
    ensures QuoteQualified(table).Err? ==> r == Outcome(false, 0, 0, [], 0)
    // Otherwise the source is closed exactly once.
    ensures QuoteQualified(table).Ok? ==> r.sourceCloses == 1
    // What was received is always the beginning of the stream; success means all of it.
    ensures received <= Flatten(chunks) && r.bytes == |received|
    ensures r.ok ==> received == Flatten(chunks) && CompleteJob(r.events, |Flatten(chunks)|, r.rows)
    ensures !r.ok && QuoteQualified(table).Ok? ==> InFlight(r.events, r.bytes) && |r.events| > 1
    // The outcome is that of a run, which succeeds exactly when no server call in it fails.
    ensures QuoteQualified(table).Ok? ==> EndsLike(chunks, run, r, received)
    ensures r.ok <==> QuoteQualified(table).Ok? && !HasFault(run)
    // Its rows are what CopyFrom returned, the one time it did.
    ensures QuoteQualified(table).Ok? ==> exists i: nat :: ReturnsWith(run, i, r.rows)
  {
    received, run := [], [];
    if QuoteQualified(table).Err? {
      return Outcome(false, 0, 0, [], 0), [], [];
    }
    hide DataInv, ProtocolInv, EventInv, Enabled, Next, Work, Flatten, InFlight, CompleteJob, QuoteQualified, Exec, HasFault, ReturnsWith;
    var s := Start(chunks);
    InvStart(chunks);
    assert Exec(Start(chunks), []) == Some(s) by { ExecNone(s); }
    while !s.caller.Returned?
      invariant Inv(s) && s.chunks == chunks
      invariant Exec(Start(chunks), run) == Some(s)
      decreases Work(s)
    {
      ghost var forced := NeverStuck(s);
      var a :| Enabled(s, a);
      WorkDecreases(s, a);
      ExecAppend(Start(chunks), run, a);
      s, run := Next(s, a), run + [a];
    }
    WhenReturned(s);
    WhenCopyFails(chunks, run);
    RowsReturned(chunks, run);
    return Outcome(s.caller.ok, |s.got|, s.rows, s.events, s.sourceCloses), s.got, run;
  }

  lemma ExecNone(s: Copy)
    ensures Exec(s, []) == Some(s)
  {
  }

  /** `run` is a run over this stream whose caller returns with this outcome. */
  ghost predicate EndsLike(chunks: seq<Bytes>, run: seq<Action>, r: Outcome, received: Bytes) {
    var end := Exec(Start(chunks), run);
    && end.Some? && end.value.caller == Returned(r.ok) && end.value.got == received && end.value.rows == r.rows
    && end.value.events == r.events && end.value.sourceCloses == r.sourceCloses
  }

  /** What the caller knows when it has both answers. */
  lemma WhenReturned(s: Copy)
    requires Inv(s) && s.caller.Returned?
    ensures s.sourceCloses == 1 && s.got <= Flatten(s.chunks)
    ensures s.caller.ok ==> s.got == Flatten(s.chunks) && CompleteJob(s.events, |s.got|, s.rows)
    ensures !s.caller.ok ==> InFlight(s.events, |s.got|) && |s.events| > 1
  {
    hide Flatten, InFlight, CompleteJob;
    DeliveredIsPrefix(s);
  }

  lemma DeliveredIsPrefix(s: Copy)
    requires DataInv(s)
    ensures s.got <= Flatten(s.chunks)
    ensures s.sent == |s.chunks| ==> s.got == Flatten(s.chunks)
  {
    if s.sent < |s.chunks| {
      var chunk := s.chunks[s.sent];
      FlattenNext(s.chunks, s.sent);
      assert chunk[..s.taken] + chunk[s.taken..] == chunk;
      FlattenPrefix(s.chunks, s.sent + 1);
    } else {
      assert s.chunks[..s.sent] == s.chunks;
    }
  }

  lemma {:induction false} FlattenPrefix(chunks: seq<Bytes>, k: nat)
    requires k <= |chunks|
    ensures Flatten(chunks[..k]) <= Flatten(chunks)
    decreases |chunks| - k
  {
    if k == |chunks| {
      assert chunks[..k] == chunks;
    } else {
      FlattenNext(chunks, k);
      FlattenPrefix(chunks, k + 1);
    }
  }
}
