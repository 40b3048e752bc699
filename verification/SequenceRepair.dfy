/** Advancing the target's sequences after the copy, in a fixed order (native/sequences.go). */
module SequenceRepair {
  import opened Strings
  import opened Models
  import opened Quoting

  const NUL: char := '\0'

  /** sequenceRepairSortKey: the five names, joined with NUL. */
  function SortKey(s: Sequence): string {
    s.schema + [NUL] + (s.name + [NUL] + (s.tableSchema + [NUL] + (s.tableName + [NUL] + s.columnName)))
  }

  predicate NulFree(s: Sequence) {
    NUL !in s.schema && NUL !in s.name && NUL !in s.tableSchema && NUL !in s.tableName
  }

  /** Names from PostgreSQL hold no NUL, so the sort key tells sequences apart. */
  lemma SortKeyInjective(a: Sequence, b: Sequence)
    requires NulFree(a) && NulFree(b) && SortKey(a) == SortKey(b)
    ensures a == b
  {
    var restA, restB := a.tableSchema + [NUL] + (a.tableName + [NUL] + a.columnName), b.tableSchema + [NUL] + (b.tableName + [NUL] + b.columnName);
    FirstSeparatorSplits(NUL, a.schema, b.schema, a.name + [NUL] + restA, b.name + [NUL] + restB);
    FirstSeparatorSplits(NUL, a.name, b.name, restA, restB);
    FirstSeparatorSplits(NUL, a.tableSchema, b.tableSchema, a.tableName + [NUL] + a.columnName, b.tableName + [NUL] + b.columnName);
    FirstSeparatorSplits(NUL, a.tableName, b.tableName, a.columnName, b.columnName);
  }

  /** The repair order: by schema, then by name, then by the table and the column. */
  lemma SortKeyOrder(a: Sequence, b: Sequence)
    requires NulFree(a) && NulFree(b)
    ensures Less(SortKey(a), SortKey(b)) <==>
      || Less(a.schema, b.schema)
      || (a.schema == b.schema && (
            || Less(a.name, b.name)
            || (a.name == b.name && (
                  || Less(a.tableSchema, b.tableSchema)
                  || (a.tableSchema == b.tableSchema && (
                        || Less(a.tableName, b.tableName)
                        || (a.tableName == b.tableName && Less(a.columnName, b.columnName))))))))
  {
    hide Less;
    var tailA, tailB := a.tableName + [NUL] + a.columnName, b.tableName + [NUL] + b.columnName;
    var restA, restB := a.tableSchema + [NUL] + tailA, b.tableSchema + [NUL] + tailB;
    JoinedOrder(NUL, a.schema, b.schema, a.name + [NUL] + restA, b.name + [NUL] + restB);
    JoinedOrder(NUL, a.name, b.name, restA, restB);
    JoinedOrder(NUL, a.tableSchema, b.tableSchema, tailA, tailB);
    JoinedOrder(NUL, a.tableName, b.tableName, a.columnName, b.columnName);
  }

  ghost predicate InKeyOrder(xs: seq<Sequence>) {
    forall i, j :: 0 <= i < j < |xs| ==> !Less(SortKey(xs[j]), SortKey(xs[i]))
  }

  function InsertByKey(x: Sequence, xs: seq<Sequence>): (r: seq<Sequence>)
    requires InKeyOrder(xs)
    ensures InKeyOrder(r) && multiset(r) == multiset(xs) + multiset{x}
  {
    if xs == [] then [x]
    else if !Less(SortKey(xs[0]), SortKey(x)) then
      Before(x, xs);
      [x] + xs
    else
      assert xs == [xs[0]] + xs[1..];
      var tail := InsertByKey(x, xs[1..]);
      After(xs[0], x, xs[1..], tail);
      [xs[0]] + tail
  }

  lemma Before(x: Sequence, xs: seq<Sequence>)
    requires InKeyOrder(xs) && xs != [] && !Less(SortKey(xs[0]), SortKey(x))
    ensures InKeyOrder([x] + xs)
  {
    forall j | 0 <= j < |xs| ensures !Less(SortKey(xs[j]), SortKey(x)) {
      if Less(SortKey(xs[j]), SortKey(x)) {
        LessTotal(SortKey(xs[0]), SortKey(xs[j]));
        if SortKey(xs[0]) != SortKey(xs[j]) {
          LessTransitive(SortKey(xs[0]), SortKey(xs[j]), SortKey(x));
        }
      }
    }
  }

  lemma After(head: Sequence, x: Sequence, rest: seq<Sequence>, tail: seq<Sequence>)
    requires InKeyOrder([head] + rest) && Less(SortKey(head), SortKey(x))
    requires InKeyOrder(tail) && multiset(tail) == multiset(rest) + multiset{x}
    ensures InKeyOrder([head] + tail)
  {
    forall j | 0 <= j < |tail| ensures !Less(SortKey(tail[j]), SortKey(head)) {
      assert tail[j] in multiset(tail);
      if tail[j] == x {
        if Less(SortKey(x), SortKey(head)) {
          LessTransitive(SortKey(x), SortKey(head), SortKey(x));
          LessIrreflexive(SortKey(x));
        }
      } else {
        assert tail[j] in multiset(rest);
        var k :| 0 <= k < |rest| && rest[k] == tail[j];
        assert ([head] + rest)[k + 1] == tail[j] && ([head] + rest)[0] == head;
      }
    }
  }

  /** slices.SortFunc on the copy. */
  function SortByKey(xs: seq<Sequence>): (r: seq<Sequence>)
    ensures InKeyOrder(r) && multiset(r) == multiset(xs)
  {
    if xs == [] then []
    else
      assert xs == [xs[0]] + xs[1..];
      InsertByKey(xs[0], SortByKey(xs[1..]))
  }

  /** The order depends on the sequences alone, not on how the plan listed them or on how ties are broken. */
  lemma {:induction false} OrderIsDetermined(a: seq<Sequence>, b: seq<Sequence>)
    requires InKeyOrder(a) && InKeyOrder(b) && multiset(a) == multiset(b)
    requires forall s :: s in a ==> NulFree(s)
    ensures a == b
    decreases |a|
  {
    hide InKeyOrder, SortKey, NulFree, Less;
    assert |multiset(a)| == |a| && |multiset(b)| == |b|;
    if a != [] {
      assert a[0] in multiset(b) && |b| > 0 && b[0] in multiset(a);
      LeastKeyFirst(a, b[0]);
      LeastKeyFirst(b, a[0]);
      LessTotal(SortKey(a[0]), SortKey(b[0]));
      SortKeyInjective(a[0], b[0]);
      RestOf(a);
      RestOf(b);
      OrderIsDetermined(a[1..], b[1..]);
    }
  }

  lemma RestOf(xs: seq<Sequence>)
    requires xs != []
    ensures xs == [xs[0]] + xs[1..] && multiset(xs[1..]) == multiset(xs) - multiset{xs[0]}
    ensures InKeyOrder(xs) ==> InKeyOrder(xs[1..])
  {
    assert xs == [xs[0]] + xs[1..];
  }

  lemma LeastKeyFirst(xs: seq<Sequence>, x: Sequence)
    requires InKeyOrder(xs) && x in xs
    ensures !Less(SortKey(x), SortKey(xs[0]))
  {
    var i :| 0 <= i < |xs| && xs[i] == x;
    LessIrreflexive(SortKey(x));
  }

  /** The target connection, which may refuse any statement. */
  class Target {
    var executed: seq<string>

    constructor ()
      ensures executed == []
    {
      executed := [];
    }

    method Exec(sql: string) returns (failed: bool)
      modifies this
      ensures executed == if failed then old(executed) else old(executed) + [sql]
    {
      failed := *;
      if !failed {
        executed := executed + [sql];
      }
    }
  }

  datatype RepairError = NoConnection | Unquotable(sequence: Sequence) | Refused(sequence: Sequence)

  ghost predicate Repaired(sequences: seq<Sequence>, statements: seq<string>) {
    |statements| == |sequences| && forall i :: 0 <= i < |sequences| ==> SequenceRepairSQL(sequences[i]) == Ok(statements[i])
  }

  predicate StopsAt(s: Sequence, failure: RepairError) {
    failure == if SequenceRepairSQL(s).Err? then Unquotable(s) else Refused(s)
  }

  /** The statements run are those of the first sequences in key order; the call succeeds when that
      is all of them, and otherwise names the one it stopped at. */
  method RepairSequences(conn: Target?, sequences: seq<Sequence>) returns (failure: Option<RepairError>, ordered: seq<Sequence>, ghost ran: seq<string>)
    modifies conn
    ensures conn == null ==> failure == Some(NoConnection)
    ensures multiset(ordered) == multiset(sequences) && InKeyOrder(ordered)
    ensures conn != null ==> conn.executed == old(conn.executed) + ran
    ensures |ran| <= |ordered| && Repaired(ordered[..|ran|], ran)
    ensures failure.None? <==> conn != null && |ran| == |ordered|
    ensures conn != null && failure.Some? ==> |ran| < |ordered| && StopsAt(ordered[|ran|], failure.value)
  {
    hide SequenceRepairSQL, InKeyOrder, SortByKey;
    ordered := SortByKey(sequences);
    ran := [];
    if conn == null {
      return Some(NoConnection), ordered, ran;
    }
    for i := 0 to |ordered|
      invariant conn.executed == old(conn.executed) + ran
      invariant |ran| == i && Repaired(ordered[..i], ran)
    {
      var sql := SequenceRepairSQL(ordered[i]);
      if sql.Err? {
        return Some(Unquotable(ordered[i])), ordered, ran;
      }
      var refused := conn.Exec(sql.value);
      if refused {
        return Some(Refused(ordered[i])), ordered, ran;
      }
      ran := ran + [sql.value];
    }
    assert ordered[..|ordered|] == ordered;
    return None, ordered, ran;
  }
}
