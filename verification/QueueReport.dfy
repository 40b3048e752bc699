/** A queue of databases synced one after another, and the combined report (tui/app.go). */
module QueueReport {
  import opened Models
  import opened Tallies
  import opened Events
  import opened Execution
  import opened Dashboard
  import opened Watching

  /** Sync results of the databases that were started; a failed one ends the queue. Every event of
      every trace is applied to the dashboard. */
  method SyncQueue(plans: seq<SyncPlan>, fails: nat -> Call -> bool, p: LiveProgress) returns (ok: bool, results: seq<Tally>, ghost records: seq<RunRecord>)
    requires p.Valid()
    modifies p
    ensures p.Valid() && |results| <= |plans|
    // The results are those of runs of the plans, all successful but perhaps the last.
    ensures AreRuns(records, plans, fails, results, ok) && p.history == old(p.history) + TracesOf(records)
    // So it has gained exactly the tables of the combined report, also when the queue failed ...
    ensures p.queue.done.tables == old(p.queue).done.tables + Sum(results).tables
    // ... and after a successful queue every number is the same, with every planned table counted.
    ensures ok ==> |results| == |plans| && p.queue.done == Plus(old(p.queue).done, Sum(results))
    ensures ok ==> forall i :: 0 <= i < |plans| && !plans[i].dryRun ==> results[i].tables == |plans[i].tables|
  {
    hide Sum, Plus, IsRun, AreRuns, Gained, RowNames, AttributedAll, TracesOf;
    results, ok, records := [], true, [];
    NoRuns(plans, fails);
    NoResults(p.queue.done);
    for i := 0 to |plans|
      invariant ok && p.Valid() && |results| == |records| == i && AreRuns(records, plans, fails, results, true)
      invariant p.history == old(p.history) + TracesOf(records)
      invariant p.queue.done == Plus(old(p.queue).done, Sum(results))
      invariant forall j :: 0 <= j < i && !plans[j].dryRun ==> results[j].tables == |plans[j].tables|
    {
      ghost var before := results;
      ghost var order, record;
      var done, total;
      done, total, order, record := SyncAndWatch(plans[i], fails(i), p);
      TracesAppend(records, record);
      OneMoreRun(records, plans, fails, results, record);
      results, records := results + [total], records + [record];
      OneMoreResult(old(p.queue).done, before, total);
      if !done {
        ok := false;
        return;
      }
    }
    PlusTables(old(p.queue).done, Sum(results));
  }

  /** What a dashboard that had gained `before` has gained with one more result. */
  lemma OneMoreResult(start: Tally, before: seq<Tally>, total: Tally)
    ensures Plus(start, Sum(before + [total])) == Plus(Plus(start, Sum(before)), total)
    ensures start.tables + Sum(before + [total]).tables == Plus(start, Sum(before)).tables + total.tables
  {
    hide Sum;
    SumAppend(before, total);
  }

  lemma NoResults(t: Tally)
    ensures Plus(t, Sum([])) == t
  {
  }

  /** One database's result. The zero time lies before every clock reading. */
  datatype RunResult = RunResult(started: nat, finished: nat, copied: Tally, stages: map<Stage, nat>, failure: Option<string>)

  function Copied(results: seq<Option<RunResult>>): seq<Tally> {
    seq(|results|, i requires 0 <= i < |results| => if results[i].Some? then results[i].value.copied else ZERO)
  }

  function StageTime(r: Option<RunResult>, stage: Stage): nat {
    if r.Some? && stage in r.value.stages then r.value.stages[stage] else 0
  }

  function StageTimes(results: seq<Option<RunResult>>, stage: Stage): seq<nat> {
    seq(|results|, i requires 0 <= i < |results| => StageTime(results[i], stage))
  }

  function AddStages(a: map<Stage, nat>, b: map<Stage, nat>): map<Stage, nat> {
    map stage | stage in a.Keys + b.Keys :: (if stage in a then a[stage] else 0) + (if stage in b then b[stage] else 0)
  }

  ghost predicate IsEarliest(results: seq<Option<RunResult>>, t: nat) {
    && (forall i :: 0 <= i < |results| && results[i].Some? ==> t <= results[i].value.started)
    && exists i :: 0 <= i < |results| && results[i].Some? && results[i].value.started == t
  }

  ghost predicate IsLatest(results: seq<Option<RunResult>>, t: nat) {
    && (forall i :: 0 <= i < |results| && results[i].Some? ==> results[i].value.finished <= t)
    && (t == 0 || exists i :: 0 <= i < |results| && results[i].Some? && results[i].value.finished == t)
  }

  /** The first failure, if any. */
  function FirstFailure(results: seq<Option<RunResult>>): Option<string> {
    if results == [] then None
    else
      var before := FirstFailure(results[..|results| - 1]);
      var last := results[|results| - 1];
      if before.Some? || last.None? then before else last.value.failure
  }

  predicate Stamped(results: seq<Option<RunResult>>) {
    forall i :: 0 <= i < |results| && results[i].Some? ==> results[i].value.started > 0
  }

  /** What a report over all results says. The start is the earliest one, except that a missing
      first result leaves the zero time in place. */
  ghost predicate Combines(results: seq<Option<RunResult>>, r: RunResult) {
    && r.copied == Sum(Copied(results)) && r.failure == FirstFailure(results)
    && (forall stage :: StageTime(Some(r), stage) == SumOf(StageTimes(results, stage)))
    && (if results != [] && results[0].Some? then IsEarliest(results, r.started) else r.started == 0)
    && IsLatest(results, r.finished)
  }

  /** Combines the results for the report. A single result is shown as it is. */
  method AggregateResult(results: seq<Option<RunResult>>, last: Option<RunResult>) returns (combined: Option<RunResult>)
    requires Stamped(results)
    ensures |results| <= 1 ==> combined == last
    ensures |results| > 1 ==> combined.Some? && Combines(results, combined.value) && Adds(results, combined.value)
  {
    if |results| <= 1 {
      return last;
    }
    hide Combines, Stamped, Adds;
    var total := RunResult(0, 0, ZERO, map[], None);
    NothingYet(results);
    for i := 0 to |results|
      invariant Combines(results[..i], total)
    {
      var before := total;
      if results[i].Some? {
        var r := results[i].value;
        if i == 0 || r.started < total.started {
          total := total.(started := r.started);
        }
        if r.finished > total.finished {
          total := total.(finished := r.finished);
        }
        total := total.(copied := Plus(total.copied, r.copied), stages := AddStages(total.stages, r.stages));
        if r.failure.Some? && total.failure.None? {
          total := total.(failure := r.failure);
        }
        StepCombines(results, i, before, total);
      } else {
        SkipCombines(results, i, total);
      }
    }
    assert results[..|results|] == results;
    CombinesAdds(results, total);
    return Some(total);
  }

  /** Number by number: what the results copied and each stage's time are added up, and the failure
      reported is the first one there is. */
  ghost predicate Adds(results: seq<Option<RunResult>>, r: RunResult) {
    && r.copied.tables == SumOf(seq(|results|, i requires 0 <= i < |results| => if results[i].Some? then results[i].value.copied.tables else 0))
    && r.copied.rows == SumOf(seq(|results|, i requires 0 <= i < |results| => if results[i].Some? then results[i].value.copied.rows else 0))
    && r.copied.bytes == SumOf(seq(|results|, i requires 0 <= i < |results| => if results[i].Some? then results[i].value.copied.bytes else 0))
    && (forall stage :: (if stage in r.stages then r.stages[stage] else 0)
          == SumOf(seq(|results|, i requires 0 <= i < |results| =>
                     if results[i].Some? && stage in results[i].value.stages then results[i].value.stages[stage] else 0)))
    && (r.failure.None? <==> forall i :: 0 <= i < |results| && results[i].Some? ==> results[i].value.failure.None?)
    && (r.failure.Some? ==> exists i :: 0 <= i < |results| && results[i].Some? && results[i].value.failure == r.failure
                              && forall j :: 0 <= j < i && results[j].Some? ==> results[j].value.failure.None?)
  }

  lemma CombinesAdds(results: seq<Option<RunResult>>, r: RunResult)
    requires Combines(results, r)
    ensures Adds(results, r)
  {
    hide Sum, SumOf, IsEarliest, IsLatest, FirstFailure;
    SumByField(Copied(results),
               seq(|results|, i requires 0 <= i < |results| => if results[i].Some? then results[i].value.copied.tables else 0),
               seq(|results|, i requires 0 <= i < |results| => if results[i].Some? then results[i].value.copied.rows else 0),
               seq(|results|, i requires 0 <= i < |results| => if results[i].Some? then results[i].value.copied.bytes else 0));
    forall stage
      ensures (if stage in r.stages then r.stages[stage] else 0)
           == SumOf(seq(|results|, i requires 0 <= i < |results| =>
                      if results[i].Some? && stage in results[i].value.stages then results[i].value.stages[stage] else 0))
    {
      assert StageTime(Some(r), stage) == SumOf(StageTimes(results, stage));
      assert StageTimes(results, stage) == seq(|results|, i requires 0 <= i < |results| =>
        if results[i].Some? && stage in results[i].value.stages then results[i].value.stages[stage] else 0);
    }
    FirstFailureIsFirst(results);
  }

  lemma {:induction false} FirstFailureIsFirst(results: seq<Option<RunResult>>)
    ensures FirstFailure(results).None? <==> forall i :: 0 <= i < |results| && results[i].Some? ==> results[i].value.failure.None?
    ensures FirstFailure(results).Some? ==>
              exists i :: 0 <= i < |results| && results[i].Some? && results[i].value.failure == FirstFailure(results)
                && forall j :: 0 <= j < i && results[j].Some? ==> results[j].value.failure.None?
  {
    if results != [] {
      var n := |results| - 1;
      var init := results[..n];
      FirstFailureIsFirst(init);
      if FirstFailure(init).Some? {
        var i :| 0 <= i < |init| && init[i].Some? && init[i].value.failure == FirstFailure(init)
          && forall j :: 0 <= j < i && init[j].Some? ==> init[j].value.failure.None?;
        assert results[i] == init[i] && forall j :: 0 <= j < i ==> results[j] == init[j];
      } else {
        assert forall j :: 0 <= j < n ==> results[j] == init[j];
      }
    }
  }

  lemma StepCombines(results: seq<Option<RunResult>>, i: nat, before: RunResult, after: RunResult)
    requires Stamped(results) && i < |results| && results[i].Some? && Combines(results[..i], before)
    requires var r := results[i].value;
      && after.started == (if i == 0 || r.started < before.started then r.started else before.started)
      && after.finished == (if r.finished > before.finished then r.finished else before.finished)
      && after.copied == Plus(before.copied, r.copied) && after.stages == AddStages(before.stages, r.stages)
      && after.failure == (if r.failure.Some? && before.failure.None? then r.failure else before.failure)
    ensures Combines(results[..i + 1], after)
  {
    hide Sum, SumOf, FirstFailure, IsEarliest, IsLatest, Plus, AddStages, Stamped;
    SumsGrow(results, i);
    FailureGrows(results, i);
    StagesGrow(results, i, before.stages, after.stages);
    StartsGrow(results, i, before.started, after.started);
    FinishesGrow(results, i, before.finished, after.finished);
  }

  lemma SkipCombines(results: seq<Option<RunResult>>, i: nat, total: RunResult)
    requires Stamped(results) && i < |results| && results[i].None? && Combines(results[..i], total)
    ensures Combines(results[..i + 1], total)
  {
    hide Sum, SumOf, FirstFailure, IsEarliest, IsLatest, Plus, Stamped;
    SumsGrow(results, i);
    FailureGrows(results, i);
    StartsGrow(results, i, total.started, total.started);
    FinishesGrow(results, i, total.finished, total.finished);
  }

  lemma NothingYet(results: seq<Option<RunResult>>)
    ensures Combines(results[..0], RunResult(0, 0, ZERO, map[], None))
  {
  }

  lemma SumsGrow(results: seq<Option<RunResult>>, i: nat)
    requires i < |results|
    ensures Sum(Copied(results[..i + 1])) == Plus(Sum(Copied(results[..i])), if results[i].Some? then results[i].value.copied else ZERO)
    ensures results[i].None? ==> Sum(Copied(results[..i + 1])) == Sum(Copied(results[..i]))
    ensures forall stage :: SumOf(StageTimes(results[..i + 1], stage)) == SumOf(StageTimes(results[..i], stage)) + StageTime(results[i], stage)
  {
    hide Sum, SumOf;
    var copied := if results[i].Some? then results[i].value.copied else ZERO;
    assert Copied(results[..i + 1]) == Copied(results[..i]) + [copied];
    SumAppend(Copied(results[..i]), copied);
    PlusZero(Sum(Copied(results[..i])));
    forall stage ensures SumOf(StageTimes(results[..i + 1], stage)) == SumOf(StageTimes(results[..i], stage)) + StageTime(results[i], stage) {
      assert StageTimes(results[..i + 1], stage) == StageTimes(results[..i], stage) + [StageTime(results[i], stage)];
      SumOfAppend(StageTimes(results[..i], stage), StageTime(results[i], stage));
    }
  }

  lemma SumOfAppend(xs: seq<nat>, x: nat)
    ensures SumOf(xs + [x]) == SumOf(xs) + x
  {
    assert (xs + [x])[..|xs|] == xs;
  }

  lemma FailureGrows(results: seq<Option<RunResult>>, i: nat)
    requires i < |results|
    ensures var before := FirstFailure(results[..i]);
            FirstFailure(results[..i + 1]) == if before.Some? || results[i].None? then before else results[i].value.failure
  {
    assert results[..i + 1][..i] == results[..i];
  }

  lemma StagesGrow(results: seq<Option<RunResult>>, i: nat, before: map<Stage, nat>, after: map<Stage, nat>)
    requires i < |results| && results[i].Some? && after == AddStages(before, results[i].value.stages)
    ensures forall stage :: (if stage in after then after[stage] else 0) == (if stage in before then before[stage] else 0) + StageTime(results[i], stage)
  {
  }

  lemma StartsGrow(results: seq<Option<RunResult>>, i: nat, before: nat, after: nat)
    requires Stamped(results) && i < |results|
    requires if i > 0 && results[0].Some? then IsEarliest(results[..i], before) else before == 0
    requires after == if results[i].Some? && (i == 0 || results[i].value.started < before) then results[i].value.started else before
    ensures if results[0].Some? then IsEarliest(results[..i + 1], after) else after == 0
  {
  }

  lemma FinishesGrow(results: seq<Option<RunResult>>, i: nat, before: nat, after: nat)
    requires i < |results| && IsLatest(results[..i], before)
    requires after == if results[i].Some? && results[i].value.finished > before then results[i].value.finished else before
    ensures IsLatest(results[..i + 1], after)
  {
  }
}
