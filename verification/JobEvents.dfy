/** The events a table copy shows its observer, and the order they come in. */
module JobEvents {

  /** What the observer sees of one table. */
  datatype JobEvent = CopyStart | CopyProgress(bytes: nat) | CopyDone(bytes: nat, rows: nat)

  /** start, then at least one progress event, with byte counts that never fall. */
  ghost predicate InFlight(events: seq<JobEvent>, bytes: nat) {
    && |events| > 0 && events[0] == CopyStart
    && (forall i :: 0 < i < |events| ==> events[i].CopyProgress? && events[i].bytes <= bytes)
    && forall i, j :: 0 < i < j < |events| ==> events[i].bytes <= events[j].bytes
  }

  /** The last progress event tells this many bytes. */
  predicate LastProgress(events: seq<JobEvent>, bytes: nat) {
    |events| > 1 && events[|events| - 1] == CopyProgress(bytes)
  }

  /** start progress+ done: the whole life of a table that was copied. The last progress and done agree. */
  ghost predicate CompleteJob(events: seq<JobEvent>, bytes: nat, rows: nat) {
    && |events| > 2
    && events[|events| - 1] == CopyDone(bytes, rows)
    && InFlight(events[..|events| - 1], bytes) && LastProgress(events[..|events| - 1], bytes)
  }

  /** A progress event with a byte count that has not fallen keeps a copy in flight. */
  lemma FlightGrows(events: seq<JobEvent>, bytes: nat, more: nat)
    requires InFlight(events, bytes) && bytes <= more
    ensures InFlight(events, more) && InFlight(events + [CopyProgress(more)], more)
    ensures LastProgress(events + [CopyProgress(more)], more)
  {
  }
}
