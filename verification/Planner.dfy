/** Building a sync plan: closure, order, exact row counts and owned sequences, as
    NativeEngine.Plan composes them. */
module Planner {
  import opened Strings
  import opened Models
  import opened KeyGraph
  import opened Topology
  import opened Closure
  import opened Quoting
  import opened Connector

  datatype Plan = Plan(tables: seq<Table>, sequences: seq<Sequence>)

  datatype PlanError =
    | TableNotFound(raw: string)
    | CycleDetected(stuck: seq<string>)
    | BadIdentifier(table: Table)
    | CountFailed(table: Table)
    | ConnectFailed
    | CatalogFailed
    | CloseFailed

  // ---------- sorting commutes with closing ----------

  /** The catalog lists both ends of every foreign key. */
  ghost predicate EndpointsInCatalog(all: seq<Table>, deps: seq<FKDep>) {
    forall d :: d in deps ==> d.child.QualifiedName() in KeySet(all) && d.parent.QualifiedName() in KeySet(all)
  }

  lemma ClosureIsParentClosed(all: seq<Table>, deps: seq<FKDep>, seeds: set<string>, selected: seq<Table>)
    requires EndpointsInCatalog(all, deps) && seeds <= KeySet(all)
    requires IsClosure(deps, seeds, KeySet(selected))
    ensures ParentClosed(DepGraph(all, deps), KeySet(selected))
    ensures DepGraph(selected, deps) == Restrict(DepGraph(all, deps), KeySet(selected))
  {
    var keep := KeySet(selected);
    var g := DepGraph(all, deps);
    assert ClosedUnder(deps, KeySet(all));
    assert keep <= KeySet(all);
    forall e | e in g.edges && e.child in keep ensures e.parent in keep {
      var d :| d in deps && DepEdge(d) == e;
      assert References(deps, e.child, e.parent);
    }
    var r := Restrict(g, keep);
    assert r.nodes == keep;
    assert forall e :: e in r.edges <==> e in DepGraph(selected, deps).edges;
  }

  /** Sorting the selected tables gives the order of the whole catalog, filtered to the selection;
      and if the whole catalog sorts, so does every selection. */
  lemma SortCommutesWithClosure(all: seq<Table>, deps: seq<FKDep>, seeds: set<string>, selected: seq<Table>)
    requires EndpointsInCatalog(all, deps) && seeds <= KeySet(all)
    requires IsClosure(deps, seeds, KeySet(selected))
    ensures KahnOrder(DepGraph(selected, deps)) == Filter(KahnOrder(DepGraph(all, deps)), KeySet(selected))
    ensures Acyclic(DepGraph(all, deps)) ==> Acyclic(DepGraph(selected, deps))
  {
    var keep := KeySet(selected);
    ClosureIsParentClosed(all, deps, seeds, selected);
    KahnCommutesWithRestriction(DepGraph(all, deps), keep);
    if Acyclic(DepGraph(all, deps)) {
      forall n | n in DepGraph(selected, deps).nodes && OnCycle(DepGraph(selected, deps), n) ensures OnCycle(DepGraph(all, deps), n) {
        RestrictedCycle(DepGraph(all, deps), keep, n);
      }
    }
  }

  lemma RestrictedCycle(g: Graph, keep: set<string>, n: string)
    requires OnCycle(Restrict(g, keep), n)
    ensures OnCycle(g, n)
  {
    var p :| |p| > 1 && PathFromTo(Restrict(g, keep), p, n, n);
    assert PathFromTo(g, p, n, n);
  }

  lemma SeedsInCatalog(all: seq<Table>, requested: seq<string>)
    ensures SeedKeys(all, requested) <= KeySet(all)
  {
    forall k | k in SeedKeys(all, requested) ensures k in KeySet(all) {
      var raw :| raw in requested && Lookup(all, raw).Some? && Lookup(all, raw).value.QualifiedName() == k;
      LookupIsLast(all, raw);
      var i :| 0 <= i < |all| && all[i] == Lookup(all, raw).value;
      assert Keys(all)[i] == k;
    }
  }

  // ---------- exact row counts ----------

  /** What the server answers to the count queries, in the order they are sent; no answer is a failed query. */
  type Replies = nat -> Option<nat>

  /** Table number `i` can be counted: its name can be quoted and its query is answered. */
  predicate Countable(t: Table, i: nat, replies: Replies) {
    QuoteQualified(t).Ok? && replies(i).Some?
  }

  function WithCount(t: Table, i: nat, replies: Replies): Table
    requires Countable(t, i, replies)
  {
    t.(rows := replies(i).value)
  }

  ghost predicate AllCountable(tables: seq<Table>, replies: Replies) {
    forall i :: 0 <= i < |tables| ==> Countable(tables[i], i, replies)
  }

  /** Counting reached table `k` and failed there; the tables before it are already overwritten. */
  ghost predicate StoppedAt(before: seq<Table>, after: seq<Table>, k: nat, replies: Replies, failure: PlanError)
    requires k < |before|
  {
    && |after| == |before|
    && !Countable(before[k], k, replies)
    && failure == (if QuoteQualified(before[k]).Err? then BadIdentifier(before[k]) else CountFailed(before[k]))
    && (forall i :: 0 <= i < k ==> Countable(before[i], i, replies) && after[i] == WithCount(before[i], i, replies))
    && (forall i :: k <= i < |before| ==> after[i] == before[i])
  }

  /** Overwrites each table's row estimate, one by one, until a count fails. */
  method CountExactRows(tables: array<Table>, replies: Replies) returns (failed: Option<PlanError>)
    modifies tables
    ensures failed.None? <==> AllCountable(old(tables[..]), replies)
    ensures failed.None? ==> Recounted(old(tables[..]), tables[..], replies)
    ensures failed.Some? ==> exists k :: 0 <= k < tables.Length && StoppedAt(old(tables[..]), tables[..], k, replies, failed.value)
    // Only row counts change, to the answers of the server.
    ensures forall i :: 0 <= i < tables.Length ==>
              && tables[i].schema == old(tables[i]).schema && tables[i].name == old(tables[i]).name
              && tables[i].sizeBytes == old(tables[i]).sizeBytes
              && (failed.None? ==> replies(i) == Some(tables[i].rows))
  {
    for index := 0 to tables.Length
      invariant forall i :: 0 <= i < index ==> Countable(old(tables[i]), i, replies) && tables[i] == WithCount(old(tables[i]), i, replies)
      invariant forall i :: index <= i < tables.Length ==> tables[i] == old(tables[i])
    {
      var quoted := QuoteQualified(tables[index]);
      if quoted.Err? {
        assert StoppedAt(old(tables[..]), tables[..], index, replies, BadIdentifier(tables[index]));
        return Some(BadIdentifier(tables[index]));
      }
      var count := replies(index);
      if count.None? {
        assert StoppedAt(old(tables[..]), tables[..], index, replies, CountFailed(tables[index]));
        return Some(CountFailed(tables[index]));
      }
      tables[index] := tables[index].(rows := count.value);
    }
    return None;
  }

  // ---------- owned sequences ----------

  /** Catalog sequences whose table is planned, in catalog order. */
  function OwnedBy(sequences: seq<Sequence>, keys: set<string>): (owned: seq<Sequence>)
    ensures forall s :: s in owned <==> s in sequences && s.OwnedTable().QualifiedName() in keys
  {
    if sequences == [] then []
    else
      var init := OwnedBy(sequences[..|sequences| - 1], keys);
      var last := sequences[|sequences| - 1];
      assert sequences == sequences[..|sequences| - 1] + [last];
      if last.OwnedTable().QualifiedName() in keys then init + [last] else init
  }

  lemma OwnedStep(sequences: seq<Sequence>, keys: set<string>)
    requires sequences != []
    ensures var init, last := sequences[..|sequences| - 1], sequences[|sequences| - 1];
            OwnedBy(sequences, keys) == OwnedBy(init, keys) + if last.OwnedTable().QualifiedName() in keys then [last] else []
  {
  }

  lemma OwnedOne(s: Sequence, keys: set<string>)
    ensures OwnedBy([], keys) == [] && OwnedBy([s], keys) == if s.OwnedTable().QualifiedName() in keys then [s] else []
  {
    OwnedStep([s], keys);
    assert [s][..0] == [];
  }

  /** Sequences keep the order of the catalog, and each is decided on its own. */
  lemma {:induction false} OwnedInOrder(a: seq<Sequence>, b: seq<Sequence>, keys: set<string>)
    ensures OwnedBy(a + b, keys) == OwnedBy(a, keys) + OwnedBy(b, keys)
    ensures |a| == 1 ==> OwnedBy(a, keys) == if a[0].OwnedTable().QualifiedName() in keys then a else []
  {
    hide OwnedBy;
    if b == [] {
      assert a + b == a;
      assert OwnedBy([], keys) == [] by { NoneOwned(keys); }
    } else {
      var init := b[..|b| - 1];
      OwnedInOrder(a, init, keys);
      assert (a + b)[..|a + b| - 1] == a + init;
      OwnedStep(a + b, keys);
      OwnedStep(b, keys);
    }
    if |a| == 1 {
      OwnedOne(a[0], keys);
      assert a == [a[0]];
    }
  }

  lemma NoneOwned(keys: set<string>)
    ensures OwnedBy([], keys) == []
  {
  }

  method SequencesForTables(sequences: seq<Sequence>, tables: seq<Table>) returns (owned: seq<Sequence>)
    ensures owned == OwnedBy(sequences, KeySet(tables))
  {
    owned := [];
    var keys: set<string> := {};
    for i := 0 to |tables|
      invariant keys == KeySet(tables[..i])
    {
      KeySetAppend(tables[..i], tables[i]);
      assert tables[..i + 1] == tables[..i] + [tables[i]];
      keys := keys + {tables[i].QualifiedName()};
    }
    assert tables[..|tables|] == tables;
    for i := 0 to |sequences|
      invariant owned == OwnedBy(sequences[..i], keys)
    {
      assert sequences[..i + 1][..i] == sequences[..i];
      if sequences[i].OwnedTable().QualifiedName() in keys {
        owned := owned + [sequences[i]];
      }
    }
    assert sequences[..|sequences|] == sequences;
  }

  // ---------- the plan ----------

  /** What the requested text selects, before ordering. */
  ghost predicate Selects(all: seq<Table>, deps: seq<FKDep>, requested: seq<string>, selected: seq<Table>) {
    if requested == [] then selected == all else Selection(all, deps, requested, selected)
  }

  /** Each foreign key of a planned child has a planned parent, copied strictly earlier unless it is itself. */
  ghost predicate FKComplete(plan: seq<Table>, deps: seq<FKDep>) {
    forall d, i :: d in deps && 0 <= i < |plan| && plan[i].QualifiedName() == d.child.QualifiedName() ==>
      exists j :: 0 <= j < |plan| && ParentSlot(plan, d, i, j)
  }

  predicate ParentSlot(plan: seq<Table>, d: FKDep, i: nat, j: nat)
    requires j < |plan|
  {
    plan[j].QualifiedName() == d.parent.QualifiedName() && (d.parent.QualifiedName() != d.child.QualifiedName() ==> j < i)
  }

  /** An ordered, parent-closed selection is FK-complete. */
  lemma OrderedIsFKComplete(selected: seq<Table>, deps: seq<FKDep>, plan: seq<Table>)
    requires IsTopological(DepGraph(selected, deps), Keys(plan))
    requires ClosedUnder(deps, KeySet(selected))
    ensures FKComplete(plan, deps)
  {
    var g := DepGraph(selected, deps);
    var keys := Keys(plan);
    forall d, i | d in deps && 0 <= i < |plan| && plan[i].QualifiedName() == d.child.QualifiedName()
      ensures exists j :: 0 <= j < |plan| && ParentSlot(plan, d, i, j)
    {
      assert keys[i] in Elements(keys);
      assert References(deps, d.child.QualifiedName(), d.parent.QualifiedName());
      assert d.parent.QualifiedName() in Elements(keys);
      var j :| 0 <= j < |keys| && keys[j] == d.parent.QualifiedName();
      if d.parent.QualifiedName() != d.child.QualifiedName() {
        assert DepEdge(d) == Edge(keys[j], keys[i]);
        assert Edge(keys[j], keys[i]) in g.edges;
      }
      assert ParentSlot(plan, d, i, j);
    }
  }

  lemma ParentIsPlanned(plan: seq<Table>, deps: seq<FKDep>, child: string, parent: string)
    requires FKComplete(plan, deps) && child in KeySet(plan) && References(deps, child, parent)
    ensures parent in KeySet(plan)
  {
    hide Table.QualifiedName, FKComplete;
    var d :| d in deps && d.child.QualifiedName() == child && d.parent.QualifiedName() == parent;
    var i :| 0 <= i < |Keys(plan)| && Keys(plan)[i] == child;
    var j := SlotOfParent(plan, deps, d, i);
    assert Keys(plan)[j] == parent;
  }

  lemma SlotOfParent(plan: seq<Table>, deps: seq<FKDep>, d: FKDep, i: nat) returns (j: nat)
    requires FKComplete(plan, deps) && d in deps && i < |plan| && plan[i].QualifiedName() == d.child.QualifiedName()
    ensures j < |plan| && plan[j].QualifiedName() == d.parent.QualifiedName()
  {
    hide Table.QualifiedName;
    j :| 0 <= j < |plan| && ParentSlot(plan, d, i, j);
  }

  /** An FK-complete list of tables holds the parents of its tables. */
  lemma FKCompleteIsClosed(plan: seq<Table>, deps: seq<FKDep>)
    requires FKComplete(plan, deps)
    ensures ClosedUnder(deps, KeySet(plan))
  {
    hide FKComplete, References, ParentSlot, Table.QualifiedName;
    forall child, parent | child in KeySet(plan) && References(deps, child, parent) ensures parent in KeySet(plan) {
      ParentIsPlanned(plan, deps, child, parent);
    }
  }

  /** The same tables with exact counts: schema, name and size unchanged. */
  ghost predicate Recounted(before: seq<Table>, after: seq<Table>, replies: Replies) {
    |after| == |before| && forall i :: 0 <= i < |before| ==> Countable(before[i], i, replies) && after[i] == WithCount(before[i], i, replies)
  }

  ghost predicate PlanMeets(all: seq<Table>, deps: seq<FKDep>, sequences: seq<Sequence>, requested: seq<string>,
                            replies: Replies, plan: Plan)
  {
    exists selected, ordered ::
      && Selects(all, deps, requested, selected)
      && SortedTables(selected, KeptGraph(selected, deps), ordered)
      && Recounted(ordered, plan.tables, replies)
      && plan.sequences == OwnedBy(sequences, KeySet(plan.tables))
  }

  ghost predicate AllNamed(all: seq<Table>, requested: seq<string>) {
    forall raw :: raw in requested ==> exists t :: t in all && Names(raw, t)
  }

  /** A selection can be planned: its keys are distinct, no cycle runs through it, every name can be
      quoted and every count query is answered. */
  ghost predicate Plannable(selected: seq<Table>, deps: seq<FKDep>, replies: Replies) {
    && DistinctKeys(selected) && Acyclic(KeptGraph(selected, deps))
    && (forall t :: t in selected ==> QuoteQualified(t).Ok?)
    && forall i :: 0 <= i < |selected| ==> replies(i).Some?
  }

  /** Ordering the tables makes no difference to whether they can be counted. */
  lemma CountableInAnyOrder(selected: seq<Table>, ordered: seq<Table>, replies: Replies)
    requires multiset(ordered) == multiset(selected)
    ensures AllCountable(ordered, replies) <==>
              (forall t :: t in selected ==> QuoteQualified(t).Ok?) && forall i :: 0 <= i < |selected| ==> replies(i).Some?
  {
    assert |ordered| == |multiset(ordered)| == |multiset(selected)| == |selected|;
    forall t ensures t in ordered <==> t in selected {
      assert t in multiset(ordered) <==> t in multiset(selected);
    }
    if AllCountable(ordered, replies) {
      forall t | t in selected ensures QuoteQualified(t).Ok? {
        var i :| 0 <= i < |ordered| && ordered[i] == t;
        assert Countable(ordered[i], i, replies);
      }
      forall i | 0 <= i < |selected| ensures replies(i).Some? {
        assert Countable(ordered[i], i, replies);
      }
    } else {
      var i :| 0 <= i < |ordered| && !Countable(ordered[i], i, replies);
      assert ordered[i] in selected;
    }
  }

  /** Which way planning this selection ends, what a cycle report holds and which table stopped the counting. */
  ghost predicate Decides(selected: seq<Table>, deps: seq<FKDep>, replies: Replies, r: Result<Plan, PlanError>) {
    var g := KeptGraph(selected, deps);
    && (r.Ok? <==> Plannable(selected, deps, replies))
    && (r.Err? && r.error.CycleDetected? <==> !(DistinctKeys(selected) && Acyclic(g)))
    && (r.Err? ==>
          match r.error
          case CycleDetected(stuck) => CycleReport(g, stuck)
          case BadIdentifier(t) => t in selected && QuoteQualified(t).Err?
          case CountFailed(t) => t in selected && QuoteQualified(t).Ok?
          case _ => false)
  }

  method BuildPlan(all: seq<Table>, deps: seq<FKDep>, sequences: seq<Sequence>, requested: seq<string>, replies: Replies)
    returns (r: Result<Plan, PlanError>)
    // An unknown name is reported exactly when there is one; otherwise the selection decides.
    ensures r.Err? && r.error.TableNotFound? <==> !AllNamed(all, requested)
    ensures r.Err? && r.error.TableNotFound? ==> r.error.raw in requested && Lookup(all, r.error.raw).None?
    ensures AllNamed(all, requested) ==> exists selected :: Selects(all, deps, requested, selected) && Decides(selected, deps, replies, r)
    ensures r.Ok? ==> PlanMeets(all, deps, sequences, requested, replies, r.value)
    ensures r.Ok? ==> forall i :: 0 <= i < |r.value.tables| ==> replies(i) == Some(r.value.tables[i].rows)
  {
    hide Acyclic, CycleReport, KeptGraph, QuoteQualified, AllCountable, SortedTables, Selection, OwnedBy;
    var closed := FKClosure(all, deps, requested);
    if closed.Err? {
      LookupIsLast(all, closed.error);
      return Err(TableNotFound(closed.error));
    }
    var selected := closed.value;
    var sorted := TopoSort(selected, deps);
    assert Selects(all, deps, requested, selected);
    if sorted.Err? {
      r := Err(CycleDetected(sorted.error));
      assert Decides(selected, deps, replies, r);
      return;
    }
    var ordered := sorted.value;
    SortedArePermuted(selected, deps, ordered);
    CountableInAnyOrder(selected, ordered, replies);
    var slots := new Table[|ordered|](i requires 0 <= i < |ordered| => ordered[i]);
    assert slots[..] == ordered;
    var failed := CountExactRows(slots, replies);
    if failed.Some? {
      r := Err(failed.value);
      StoppedInSelection(selected, ordered, slots[..], replies, failed.value);
      assert Decides(selected, deps, replies, r);
      return;
    }
    var tables := slots[..];
    var owned := SequencesForTables(sequences, tables);
    r := Ok(Plan(tables, owned));
    assert Decides(selected, deps, replies, r);
  }

  /** What the remote server does with the calls of one Plan: a missing list is a failed catalog query. */
  datatype Server = Server(
    refuses: bool,
    tables: Option<seq<Table>>, deps: Option<seq<FKDep>>, sequences: Option<seq<Sequence>>,
    replies: Replies,
    closeFails: bool)
  {
    predicate Lists() {
      !refuses && tables.Some? && deps.Some? && sequences.Some?
    }
  }

  /** A close that fails turns success into failure and leaves an earlier failure as it is. */
  function AfterClose(r: Result<Plan, PlanError>, closeFails: bool): Result<Plan, PlanError> {
    if r.Ok? && closeFails then Err(CloseFailed) else r
  }

  /** The whole call: connect, list the catalog, build the plan, close the connection on every way out. */
  method PlanDatabase(server: Server, requested: seq<string>) returns (r: Result<Plan, PlanError>, conn: PgxConn?)
    ensures conn == null <==> server.refuses
    ensures conn != null ==> fresh(conn) && conn.nativeCloses == 1
    ensures r == Err(ConnectFailed) <==> server.refuses
    ensures r == Err(CatalogFailed) <==> !server.refuses && !server.Lists()
    // With the catalog at hand an unknown name, the selection or the close decides.
    ensures server.Lists() ==> (r.Err? && r.error.TableNotFound? <==> !AllNamed(server.tables.value, requested))
    ensures server.Lists() && AllNamed(server.tables.value, requested) ==>
              exists selected, built ::
                && Selects(server.tables.value, server.deps.value, requested, selected)
                && Decides(selected, server.deps.value, server.replies, built) && r == AfterClose(built, server.closeFails)
    // A plan is handed out only over a connection that was closed well, and with the server's counts.
    ensures server.closeFails ==> r.Err?
    ensures r == Err(CloseFailed) ==> server.closeFails
    ensures r.Ok? ==> forall i :: 0 <= i < |r.value.tables| ==> server.replies(i) == Some(r.value.tables[i].rows)
    ensures r.Ok? ==>
              && server.Lists()
              && PlanMeets(server.tables.value, server.deps.value, server.sequences.value, requested, server.replies, r.value)
  {
    hide AllNamed, Selects, Plannable, CycleReport, PlanMeets;
    if server.refuses {
      return Err(ConnectFailed), null;
    }
    conn := new PgxConn();
    var built: Result<Plan, PlanError> := Err(CatalogFailed);
    if server.tables.Some? && server.deps.Some? && server.sequences.Some? {
      built := BuildPlan(server.tables.value, server.deps.value, server.sequences.value, requested, server.replies);
    }
    var closeFailed := conn.Close(server.closeFails);
    r := AfterClose(built, closeFailed);
  }

  lemma StoppedInSelection(selected: seq<Table>, ordered: seq<Table>, after: seq<Table>, replies: Replies, failure: PlanError)
    requires multiset(ordered) == multiset(selected)
    requires exists k :: 0 <= k < |ordered| && StoppedAt(ordered, after, k, replies, failure)
    ensures failure.BadIdentifier? || failure.CountFailed?
    ensures failure.table in selected && (failure.BadIdentifier? <==> QuoteQualified(failure.table).Err?)
  {
    var k :| 0 <= k < |ordered| && StoppedAt(ordered, after, k, replies, failure);
    assert ordered[k] in multiset(ordered);
  }

  lemma SortedArePermuted(selected: seq<Table>, deps: seq<FKDep>, ordered: seq<Table>)
    requires SortedTables(selected, KeptGraph(selected, deps), ordered)
    ensures multiset(ordered) == multiset(selected) && Keys(ordered) == KahnOrder(KeptGraph(selected, deps))
  {
  }

  lemma RecountKeepsKeys(before: seq<Table>, after: seq<Table>, replies: Replies)
    requires Recounted(before, after, replies)
    ensures Keys(after) == Keys(before)
  {
  }

  /** A request brings its own parents in, so its plan is always FK-complete. The plan of the empty
      request is, exactly when the catalog listed every parent: tables and foreign keys are read by
      separate queries. The keys are the selection's in its least topological order. */
  lemma PlanIsFKComplete(all: seq<Table>, deps: seq<FKDep>, sequences: seq<Sequence>, requested: seq<string>,
                         replies: Replies, plan: Plan)
    requires PlanMeets(all, deps, sequences, requested, replies, plan)
    requires NulFreeNames(all, deps)
    ensures FKComplete(plan.tables, deps) <==> (requested == [] ==> ClosedUnder(deps, KeySet(all)))
    ensures exists selected :: Selects(all, deps, requested, selected) && Keys(plan.tables) == KahnOrder(DepGraph(selected, deps))
    ensures forall s :: s in plan.sequences <==> s in sequences && s.OwnedTable().QualifiedName() in KeySet(plan.tables)
  {
    var selected, ordered :|
      && Selects(all, deps, requested, selected)
      && SortedTables(selected, KeptGraph(selected, deps), ordered)
      && Recounted(ordered, plan.tables, replies)
      && plan.sequences == OwnedBy(sequences, KeySet(plan.tables));
    NulFreeIsUnambiguous(selected, deps);
    KeptIsReal(selected, deps);
    RecountKeepsKeys(ordered, plan.tables, replies);
    if requested == [] ==> ClosedUnder(deps, KeySet(all)) {
      OrderedIsFKComplete(selected, deps, plan.tables);
    } else {
      if FKComplete(plan.tables, deps) {
        FKCompleteIsClosed(plan.tables, deps);
      }
    }
  }

  ghost predicate NulFreeNames(all: seq<Table>, deps: seq<FKDep>) {
    forall t :: t in all || t in ParentTables(deps) ==> NulFree(t.schema) && NulFree(t.name)
  }

  /** Planning a request is planning the whole catalog and keeping the closure: the copy order
      of the selected tables does not depend on what else was selected. */
  lemma PlanOrderIsFilteredCatalogOrder(all: seq<Table>, deps: seq<FKDep>, requested: seq<string>, selected: seq<Table>)
    requires EndpointsInCatalog(all, deps) && requested != [] && Selection(all, deps, requested, selected)
    ensures KahnOrder(DepGraph(selected, deps)) == Filter(KahnOrder(DepGraph(all, deps)), KeySet(selected))
    ensures Acyclic(DepGraph(all, deps)) ==> Acyclic(DepGraph(selected, deps))
  {
    SeedsInCatalog(all, requested);
    SortCommutesWithClosure(all, deps, SeedKeys(all, requested), selected);
  }

  /** Joined edge keys tell apart the foreign keys of the catalog, and so those of any selection from it. */
  lemma SelectionIsUnambiguous(all: seq<Table>, deps: seq<FKDep>, selected: seq<Table>)
    requires EdgeKeysUnambiguous(all, deps) && KeySet(selected) <= KeySet(all)
    ensures EdgeKeysUnambiguous(selected, deps)
  {
    assert DepGraph(selected, deps).edges <= DepGraph(all, deps).edges;
  }

  lemma SelectionInCatalog(all: seq<Table>, deps: seq<FKDep>, requested: seq<string>, selected: seq<Table>)
    requires EndpointsInCatalog(all, deps) && Selection(all, deps, requested, selected)
    ensures KeySet(selected) <= KeySet(all) && DistinctKeys(selected)
  {
    SeedsInCatalog(all, requested);
    assert ClosedUnder(deps, KeySet(all));
    SortedIsDistinct(Keys(selected));
  }

  /** The two sorts of the catalog and of a closure agree: when the catalog sorts the closure does,
      and its order is the catalog's order with everything else left out. */
  method SortCatalogAndClosure(all: seq<Table>, deps: seq<FKDep>, requested: seq<string>, selected: seq<Table>)
    returns (whole: Result<seq<Table>, seq<string>>, part: Result<seq<Table>, seq<string>>)
    requires EndpointsInCatalog(all, deps) && requested != [] && Selection(all, deps, requested, selected)
    requires EdgeKeysUnambiguous(all, deps)
    ensures whole.Ok? ==> part.Ok? && Keys(part.value) == Filter(Keys(whole.value), KeySet(selected))
  {
    hide Acyclic, SortedTables, KeptGraph, DepGraph, Selection, EdgeKeysUnambiguous, KahnOrder, Filter, CycleReport, DistinctKeys, EndpointsInCatalog, KeySet;
    whole := TopoSort(all, deps);
    part := TopoSort(selected, deps);
    SelectionInCatalog(all, deps, requested, selected);
    SelectionIsUnambiguous(all, deps, selected);
    KeptIsReal(all, deps);
    KeptIsReal(selected, deps);
    PlanOrderIsFilteredCatalogOrder(all, deps, requested, selected);
    if whole.Ok? {
      SortedArePermuted(all, deps, whole.value);
      SortedArePermuted(selected, deps, part.value);
    }
  }

  /** Two plans over one catalog, one for everything and one for a request: the second copies its
      tables in the order of the first. */
  lemma PlansAgreeOnOrder(all: seq<Table>, deps: seq<FKDep>, sequences: seq<Sequence>, requested: seq<string>,
                          replies: Replies, later: Replies, whole: Plan, part: Plan)
    requires EndpointsInCatalog(all, deps) && requested != [] && NulFreeNames(all, deps)
    requires PlanMeets(all, deps, sequences, [], replies, whole)
    requires PlanMeets(all, deps, sequences, requested, later, part)
    ensures Keys(part.tables) == Filter(Keys(whole.tables), KeySet(part.tables))
  {
    hide Acyclic, KahnOrder, Filter, Selection, EdgeKeysUnambiguous, EndpointsInCatalog, NulFree;
    var catalog := PlanKeys(all, deps, sequences, [], replies, whole);
    var selected := PlanKeys(all, deps, sequences, requested, later, part);
    PlanOrderIsFilteredCatalogOrder(all, deps, requested, selected);
  }

  /** A plan's keys are its selection's keys, in the least topological order. */
  lemma PlanKeys(all: seq<Table>, deps: seq<FKDep>, sequences: seq<Sequence>, requested: seq<string>, replies: Replies, plan: Plan)
    returns (selected: seq<Table>)
    requires PlanMeets(all, deps, sequences, requested, replies, plan) && NulFreeNames(all, deps)
    ensures Selects(all, deps, requested, selected) && Keys(plan.tables) == KahnOrder(DepGraph(selected, deps))
    ensures KeySet(plan.tables) == KeySet(selected)
  {
    hide Acyclic, KahnOrder, Filter, ClosedUnder;
    var ordered;
    selected, ordered :|
      && Selects(all, deps, requested, selected)
      && SortedTables(selected, KeptGraph(selected, deps), ordered)
      && Recounted(ordered, plan.tables, replies)
      && plan.sequences == OwnedBy(sequences, KeySet(plan.tables));
    NulFreeIsUnambiguous(selected, deps);
    KeptIsReal(selected, deps);
    RecountKeepsKeys(ordered, plan.tables, replies);
  }
}
