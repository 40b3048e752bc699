/** The reader that counts a COPY stream and throttles its progress events (native/progress.go).
    Clock readings are whole nanoseconds; they are given to each call and never go back. */
module Progress {
  import opened Models
  import opened Tallies

  /** progressPercent and the dashboard's safePercent: a share in 0..100, whatever the estimate. */
  function Percent(done: int, estimated: int): (percent: real)
    ensures 0.0 <= percent <= 100.0
    ensures estimated <= 0 ==> percent == 0.0
    ensures 0 <= done <= estimated && estimated > 0 ==> percent == done as real / estimated as real * 100.0
    ensures 0 < estimated <= done ==> percent == 100.0
  {
    if estimated <= 0 then 0.0
    else
      var percent := done as real / estimated as real * 100.0;
      Share(done, estimated);
      if percent < 0.0 then 0.0 else if percent > 100.0 then 100.0 else percent
  }

  lemma Share(done: int, estimated: int)
    requires estimated > 0
    ensures 0 <= done <= estimated ==> 0.0 <= done as real / estimated as real * 100.0 <= 100.0
    ensures estimated <= done ==> done as real / estimated as real * 100.0 >= 100.0
  {
  }

  ghost predicate FirstAt(estimates: seq<int>, i: nat, first: int) {
    i < |estimates| && estimates[i] == first && forall j :: 0 <= j < i ==> estimates[j] <= 0
  }

  /** The first estimate that is positive, or 0. */
  function FirstPositive(estimates: seq<int>): (first: nat)
    ensures first == 0 <==> forall i :: 0 <= i < |estimates| ==> estimates[i] <= 0
    ensures first > 0 ==> exists i: nat :: FirstAt(estimates, i, first)
  {
    if estimates == [] then 0
    else if estimates[0] > 0 then
      assert FirstAt(estimates, 0, estimates[0]);
      estimates[0]
    else
      var first := FirstPositive(estimates[1..]);
      assert forall i :: 0 < i < |estimates| ==> estimates[i] == estimates[1..][i - 1];
      assert first > 0 ==> exists i: nat :: FirstAt(estimates, i, first) by {
        if first > 0 {
          var i: nat :| FirstAt(estimates[1..], i, first);
          assert FirstAt(estimates, i + 1, first);
        }
      }
      first
  }

  /** What a table copy passes: the size, else the row count (progressEstimate). */
  function TableEstimate(t: Table): nat {
    FirstPositive([t.sizeBytes, 0, 0, t.sizeBytes, 0, t.rows])
  }

  lemma SizeElseRows(t: Table)
    ensures TableEstimate(t) == if t.sizeBytes > 0 then t.sizeBytes else t.rows
  {
    var estimates := [t.sizeBytes, 0, 0, t.sizeBytes, 0, t.rows];
    assert estimates[0] == t.sizeBytes && estimates[3] == t.sizeBytes && estimates[5] == t.rows;
    if TableEstimate(t) > 0 {
      var i: nat :| FirstAt(estimates, i, TableEstimate(t));
    }
  }

  datatype Report = Report(at: int, bytes: nat, percent: real)

  function ReportAt(at: int, bytes: nat, estimated: int): Report {
    Report(at, bytes, Percent(bytes, estimated))
  }

  /** What a report says. */
  ghost predicate Says(r: Report, at: int, bytes: nat, estimated: int) {
    && r.at == at && r.bytes == bytes
    && (estimated <= 0 ==> r.percent == 0.0)
    && (0 < estimated <= bytes ==> r.percent == 100.0)
    && (bytes < estimated ==> r.percent == bytes as real / estimated as real * 100.0)
  }

  lemma ReportSays(at: int, bytes: nat, estimated: int)
    ensures Says(ReportAt(at, bytes, estimated), at, bytes, estimated)
  {
    hide Percent;
  }

  function Appended(log: seq<Report>, reported: bool, r: Report): seq<Report> {
    if reported then log + [r] else log
  }

  /** The log only ever moves forward, in time and in bytes. */
  ghost predicate Forwards(log: seq<Report>, bytes: nat, last: int, estimated: int) {
    && (forall i :: 0 <= i < |log| ==> log[i] == ReportAt(log[i].at, log[i].bytes, estimated) && log[i].bytes <= bytes && log[i].at <= last)
    && (forall i, j :: 0 <= i < j < |log| ==> log[i].bytes <= log[j].bytes && log[i].at <= log[j].at)
  }

  lemma ForwardsGrows(log: seq<Report>, bytes: nat, more: nat, last: int, later: int, estimated: int)
    requires Forwards(log, bytes, last, estimated) && bytes <= more && last <= later
    ensures Forwards(log, more, later, estimated)
    ensures Forwards(log + [ReportAt(later, more, estimated)], more, later, estimated)
  {
  }

  /** `k` intervals fit into the span. */
  ghost predicate Spaced(k: nat, interval: int, span: int) {
    k * interval <= span
  }

  lemma SpacedGrows(k: nat, interval: int, span: int, wider: int)
    requires Spaced(k, interval, span) && span <= wider
    ensures Spaced(k, interval, wider)
    ensures wider - span >= interval ==> Spaced(k + 1, interval, wider)
  {
  }

  lemma SpacedFit(k: nat, interval: int, span: int)
    requires interval > 0 && Spaced(k, interval, span)
    ensures k <= span / interval
  {
    assert (span / interval) * interval + span % interval == span;
    var q := span / interval;
    assert k >= q + 1 ==> k * interval >= (q + 1) * interval;
  }

  class ProgressReader {
    const observed: bool
    const interval: int
    const estimated: int
    const started: int
    var lastEmit: int
    var bytes: nat
    var final: bool
    var log: seq<Report>
    ghost var now: int      // the latest clock reading
    ghost var due: nat      // reports made because the interval had passed

    ghost predicate Valid()
      reads this
    {
      && started <= lastEmit <= now
      && (observed ==> |log| == 1 + due + (if final then 1 else 0))
      && (!observed ==> log == [])
      && (interval > 0 ==> Spaced(due, interval, lastEmit - started))
      && Ordered()
    }

    ghost predicate Ordered()
      reads this`log, this`lastEmit, this`bytes
    {
      && (observed ==> log != [] && log[0] == ReportAt(started, 0, estimated) && log[|log| - 1].at == lastEmit)
      && Forwards(log, bytes, lastEmit, estimated)
    }

    /** Reports zero bytes at once. */
    constructor (observed: bool, interval: int, estimated: int, clock: int)
      ensures Valid() && bytes == 0 && !final && now == clock == started == lastEmit
      ensures this.observed == observed && this.interval == interval && this.estimated == estimated
      ensures log == if observed then [ReportAt(clock, 0, estimated)] else []
    {
      this.observed, this.interval, this.estimated, started := observed, interval, estimated, clock;
      lastEmit, bytes, final, now, due := clock, 0, false, clock, 0;
      log := if observed then [ReportAt(clock, 0, estimated)] else [];
    }

    predicate Due(clock: int)
      reads this`lastEmit
    {
      interval <= 0 || clock - lastEmit >= interval
    }

    method Emit(clock: int)
      requires Ordered() && lastEmit <= clock
      modifies this`lastEmit, this`log
      ensures Ordered() && lastEmit == clock
      ensures log == Appended(old(log), observed, ReportAt(clock, bytes, estimated))
    {
      hide Forwards;
      ForwardsGrows(log, bytes, bytes, lastEmit, clock, estimated);
      lastEmit := clock;
      if observed {
        log := log + [ReportAt(clock, bytes, estimated)];
      }
    }

    /** A report unless the last one is younger than the interval. */
    method EmitIfDue(clock: int)
      requires Valid() && now <= clock
      modifies this`lastEmit, this`log, this`now, this`due
      ensures Valid() && now == clock
      ensures log == Appended(old(log), old(Due(clock)) && observed, ReportAt(clock, bytes, estimated))
      ensures interval > 0 ==> clock - lastEmit < interval
      // That is, exactly when the interval has passed since the last one.
      ensures observed && clock - old(lastEmit) >= interval ==> |log| == |old(log)| + 1 && Says(log[|old(log)|], clock, bytes, estimated)
      ensures !observed || (interval > 0 && clock - old(lastEmit) < interval) ==> log == old(log)
    {
      hide Forwards, Spaced, Percent, Says;
      ReportSays(clock, bytes, estimated);
      now := clock;
      if interval > 0 && clock - lastEmit < interval {
        return;
      }
      if interval > 0 {
        SpacedGrows(due, interval, lastEmit - started, clock - started);
      }
      due := due + 1;
      Emit(clock);
    }

    /** The final report is made once. */
    method EmitFinal(clock: int)
      requires Valid() && now <= clock
      modifies this`lastEmit, this`log, this`now, this`final
      ensures Valid() && now == clock && final
      ensures log == Appended(old(log), !old(final) && observed, ReportAt(clock, bytes, estimated))
      ensures clock - lastEmit <= clock - old(lastEmit)
    {
      hide Forwards, Spaced, Percent;
      now := clock;
      if final {
        return;
      }
      if interval > 0 {
        SpacedGrows(due, interval, lastEmit - started, clock - started);
      }
      final := true;
      Emit(clock);
    }

    /** One read of the wrapped reader: `n` bytes, and whether it ended in EOF or an error. The two
        clock readings are those taken for a due report and for the final one. */
    method Read(n: nat, terminal: bool, clock: int, endClock: int)
      requires Valid() && now <= clock <= endClock
      modifies this
      ensures Valid() && now <= endClock
      ensures bytes == old(bytes) + n && final == (old(final) || terminal)
      ensures var duly := n > 0 && old(Due(clock)) && observed;
              var finally := terminal && !old(final) && observed;
              log == Appended(Appended(old(log), duly, ReportAt(clock, bytes, estimated)), finally, ReportAt(endClock, bytes, estimated))
      // What is shown is never older than the interval when bytes arrive.
      ensures n > 0 && interval > 0 ==> clock - lastEmit < interval
    {
      hide Forwards, Spaced, Percent;
      ForwardsGrows(log, bytes, bytes + n, lastEmit, lastEmit, estimated);
      if n > 0 {
        bytes := bytes + n;
        EmitIfDue(clock);
      }
      if terminal {
        EmitFinal(endClock);
      }
    }

    /** However many reads there were, the observer saw the first report, the final one, and at
        most one for each interval that has passed. */
    lemma EventBudget(clock: int)
      requires Valid() && interval > 0 && now <= clock
      ensures |log| <= 2 + (clock - started) / interval
    {
      SpacedGrows(due, interval, lastEmit - started, clock - started);
      SpacedFit(due, interval, clock - started);
    }
  }

  datatype Chunk = Chunk(n: nat, clock: int, endClock: int)

  ghost predicate Forward(chunks: seq<Chunk>, from: int) {
    && (chunks != [] ==> from <= chunks[0].clock)
    && (forall i :: 0 <= i < |chunks| ==> chunks[i].clock <= chunks[i].endClock)
    && forall i, j :: 0 <= i < j < |chunks| ==> chunks[i].endClock <= chunks[j].clock
  }

  function Total(chunks: seq<Chunk>): nat {
    if chunks == [] then 0 else Total(chunks[..|chunks| - 1]) + chunks[|chunks| - 1].n
  }

  lemma {:induction false} TotalIsSum(chunks: seq<Chunk>)
    ensures Total(chunks) == SumOf(seq(|chunks|, i requires 0 <= i < |chunks| => chunks[i].n))
  {
    if chunks != [] {
      var n := |chunks| - 1;
      TotalIsSum(chunks[..n]);
      assert seq(|chunks|, i requires 0 <= i < |chunks| => chunks[i].n)[..n] == seq(n, i requires 0 <= i < n => chunks[..n][i].n);
    }
  }

  /** When the last chunk has been read. */
  function LastClock(chunks: seq<Chunk>, from: int): int {
    if chunks == [] then from else chunks[|chunks| - 1].endClock
  }

  /** Reading a stream to its end, which arrives with the last chunk or, at the clock reading given
      then, in a read of its own: the last report carries every byte, and the number of reports is
      bounded by the time it took. */
  method Drain(p: ProgressReader, chunks: seq<Chunk>, after: Option<int>)
    requires p.Valid() && !p.final && p.observed && p.interval > 0 && p.bytes == 0
    requires Forward(chunks, p.now)
    requires if after.Some? then LastClock(chunks, p.now) <= after.value else chunks != []
    modifies p
    ensures p.Valid() && p.final && p.bytes == SumOf(seq(|chunks|, i requires 0 <= i < |chunks| => chunks[i].n))
    ensures var end := if after.Some? then after.value else chunks[|chunks| - 1].endClock;
      && p.log != [] && Says(p.log[|p.log| - 1], end, p.bytes, p.estimated)
      && |p.log| <= 2 + (end - p.started) / p.interval
  {
    hide Forwards, Spaced, Percent, Says, SumOf;
    TotalIsSum(chunks);
    for i := 0 to |chunks|
      invariant p.Valid() && (p.final <==> after.None? && i == |chunks|)
      invariant p.bytes == Total(chunks[..i])
      invariant p.now <= LastClock(chunks[..i], old(p.now))
      invariant p.final ==> p.log[|p.log| - 1] == ReportAt(LastClock(chunks, old(p.now)), p.bytes, p.estimated)
    {
      assert LastClock(chunks[..i], old(p.now)) <= chunks[i].clock;
      p.Read(chunks[i].n, after.None? && i == |chunks| - 1, chunks[i].clock, chunks[i].endClock);
      assert chunks[..i + 1][..i] == chunks[..i];
    }
    assert chunks[..|chunks|] == chunks;
    if after.Some? {
      p.Read(0, true, after.value, after.value);
    }
    ReportSays(if after.Some? then after.value else LastClock(chunks, old(p.now)), p.bytes, p.estimated);
    p.EventBudget(if after.Some? then after.value else LastClock(chunks, old(p.now)));
  }
}
