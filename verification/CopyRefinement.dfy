/** The worker pool takes a table copy as a few steps of its worker; the pipe machine takes it as two
    goroutines and a caller. Every outcome of the pipe is one the pool's steps produce (native/copy.go). */
module CopyRefinement {
  import opened Models
  import opened Tallies
  import opened JobEvents
  import opened Quoting
  import Pipe = CopyPipe
  import Pool = CopyPool

  /** Where a worker is with its job, and what the observer has seen of it. */
  datatype Work = Work(phase: Pool.Phase, ledger: Pool.Ledger, events: seq<JobEvent>)

  function Perform(table: Table, budget: nat, w: Work, step: Pool.Step): Option<Work> {
    if !Pool.StepAllowed(budget, w.phase, step) then None
    else
      var e := Pool.AfterStep(table, budget, w.phase, w.ledger, step);
      Some(Work(e.phase, e.ledger, Pool.Logged(w.events, e.event)))
  }

  function PerformAll(table: Table, budget: nat, w: Work, steps: seq<Pool.Step>): Option<Work> {
    if steps == [] then Some(w)
    else
      var before := PerformAll(table, budget, w, steps[..|steps| - 1]);
      if before.None? then None else Perform(table, budget, before.value, steps[|steps| - 1])
  }

  lemma PerformOneMore(table: Table, budget: nat, w: Work, steps: seq<Pool.Step>, step: Pool.Step)
    requires PerformAll(table, budget, w, steps).Some?
    ensures PerformAll(table, budget, w, steps + [step]) == Perform(table, budget, PerformAll(table, budget, w, steps).value, step)
  {
    assert (steps + [step])[..|steps|] == steps;
  }

  /** The worker's steps for a copy whose observer saw these events, up to the end of the stream. */
  function StepsFor(events: seq<JobEvent>): seq<Pool.Step>
    requires |events| > 0 && forall i :: 0 < i < |events| ==> events[i].CopyProgress?
  {
    if |events| == 1 then [Pool.BeginCopy]
    else StepsFor(events[..|events| - 1]) + [Pool.Progress(events[|events| - 1].bytes)]
  }

  function LastBytes(events: seq<JobEvent>): nat
    requires |events| > 0 && forall i :: 0 < i < |events| ==> events[i].CopyProgress?
  {
    if |events| == 1 then 0 else events[|events| - 1].bytes
  }

  lemma {:induction false} FlightIsPerformed(table: Table, budget: nat, ledger: Pool.Ledger, events: seq<JobEvent>, bytes: nat)
    requires QuoteQualified(table).Ok? && InFlight(events, bytes) && |events| <= budget + 1
    ensures PerformAll(table, budget, Work(Pool.BothOpened, ledger, []), StepsFor(events))
         == Some(Work(Pool.Copying(budget + 1 - |events|, LastBytes(events)), ledger, events))
  {
    hide QuoteQualified;
    var start := Work(Pool.BothOpened, ledger, []);
    if |events| == 1 {
      assert PerformAll(table, budget, start, []) == Some(start);
      PerformOneMore(table, budget, start, [], Pool.BeginCopy);
      assert [] + [Pool.BeginCopy] == [Pool.BeginCopy] && [] + [CopyStart] == events;
    } else {
      var before := events[..|events| - 1];
      assert InFlight(before, bytes);
      FlightIsPerformed(table, budget, ledger, before, bytes);
      PerformOneMore(table, budget, start, StepsFor(before), Pool.Progress(events[|events| - 1].bytes));
      assert before + [CopyProgress(events[|events| - 1].bytes)] == events;
    }
  }

  /** What CopyTable's contract says of an outcome for a table whose name can be quoted. */
  ghost predicate PipeOutcome(r: Pipe.Outcome) {
    && r.sourceCloses == 1
    && (if r.ok then CompleteJob(r.events, r.bytes, r.rows) else InFlight(r.events, r.bytes) && |r.events| > 1)
  }

  /** How the worker ends a copy with this outcome. */
  function LastStep(r: Pipe.Outcome): Pool.Step {
    if r.ok then Pool.CopyEnds(r.rows) else Pool.CopyFails(r.rows, r.bytes)
  }

  function CopyEvents(r: Pipe.Outcome): seq<JobEvent>
    requires PipeOutcome(r)
  {
    if r.ok then r.events[..|r.events| - 1] else r.events
  }

  /** The last step, taken when all events in flight have been shown. */
  lemma FlightEnds(table: Table, ledger: Pool.Ledger, r: Pipe.Outcome)
    requires PipeOutcome(r)
    ensures var events, result := CopyEvents(r), Pool.TableResult(Tally(if r.ok then 1 else 0, r.rows, r.bytes), !r.ok);
      && |events| > 1
      && Perform(table, |events| - 1, Work(Pool.Copying(0, LastBytes(events)), ledger, events), LastStep(r))
         == Some(Work(Pool.ClosingTarget(result), ledger.(sourceCloses := ledger.sourceCloses + r.sourceCloses), r.events))
  {
    hide QuoteQualified;
    if r.ok {
      assert r.events == CopyEvents(r) + [r.events[|r.events| - 1]];
    }
  }

  /** Every outcome of the pipe is an outcome of the worker's steps: same counts, same events in the
      same order, the source closed once. */
  lemma PipeRefinesWorker(table: Table, ledger: Pool.Ledger, r: Pipe.Outcome)
    requires QuoteQualified(table).Ok? && PipeOutcome(r)
    ensures var budget, result := |CopyEvents(r)| - 1, Pool.TableResult(Tally(if r.ok then 1 else 0, r.rows, r.bytes), !r.ok);
      && budget > 0
      && PerformAll(table, budget, Work(Pool.BothOpened, ledger, []), StepsFor(CopyEvents(r)) + [LastStep(r)])
         == Some(Work(Pool.ClosingTarget(result), ledger.(sourceCloses := ledger.sourceCloses + r.sourceCloses), r.events))
  {
    var events := CopyEvents(r);
    var budget := |events| - 1;
    FlightEnds(table, ledger, r);
    hide QuoteQualified, Perform, PerformAll, StepsFor, LastBytes, LastStep;
    FlightIsPerformed(table, budget, ledger, events, r.bytes);
    PerformOneMore(table, budget, Work(Pool.BothOpened, ledger, []), StepsFor(events), LastStep(r));
  }

  /** One whole copy in both machines. */
  method CopyAsWorker(table: Table, chunks: seq<Pipe.Bytes>, ghost ledger: Pool.Ledger) returns (r: Pipe.Outcome, ghost steps: seq<Pool.Step>)
    requires QuoteQualified(table).Ok?
    ensures PipeOutcome(r)
    ensures PerformAll(table, |CopyEvents(r)| - 1, Work(Pool.BothOpened, ledger, []), steps).Some?
    ensures PerformAll(table, |CopyEvents(r)| - 1, Work(Pool.BothOpened, ledger, []), steps).value.events == r.events
    ensures PerformAll(table, |CopyEvents(r)| - 1, Work(Pool.BothOpened, ledger, []), steps).value.phase
         == Pool.ClosingTarget(Pool.TableResult(Tally(if r.ok then 1 else 0, r.rows, r.bytes), !r.ok))
  {
    hide PerformAll, StepsFor, QuoteQualified;
    ghost var received, run;
    r, received, run := Pipe.CopyTable(table, chunks);
    PipeRefinesWorker(table, ledger, r);
    steps := StepsFor(CopyEvents(r)) + [LastStep(r)];
  }
}
