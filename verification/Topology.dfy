/** Dependency-first ordering of tables: the mutable graph of pgschema/deps.go, proved
    against the key graph of module KeyGraph. */
module Topology {
  import opened Strings
  import opened Models
  import opened KeyGraph

  // ---------- the graph the code builds ----------

  /** A pair of keys as one map key, joined by a NUL. */
  function EdgeKey(e: Edge): string {
    e.parent + "\0" + e.child
  }

  function DepEdge(dep: FKDep): Edge {
    Edge(dep.parent.QualifiedName(), dep.child.QualifiedName())
  }

  ghost predicate Relevant(nodes: set<string>, e: Edge) {
    e.parent != e.child && e.parent in nodes && e.child in nodes
  }

  /** The foreign keys between two distinct tables of the input. */
  ghost function RealEdges(nodes: set<string>, deps: seq<FKDep>): set<Edge> {
    set d | d in deps && Relevant(nodes, DepEdge(d)) :: DepEdge(d)
  }

  /** The edges the code keeps: the first of each joined key. */
  ghost function KeptEdges(nodes: set<string>, deps: seq<FKDep>): set<Edge> {
    if deps == [] then {}
    else
      var kept := KeptEdges(nodes, deps[..|deps| - 1]);
      var e := DepEdge(deps[|deps| - 1]);
      if Relevant(nodes, e) && EdgeKey(e) !in EdgeKeys(kept) then kept + {e} else kept
  }

  ghost function EdgeKeys(edges: set<Edge>): set<string> {
    set e | e in edges :: EdgeKey(e)
  }

  ghost function KeptGraph(tables: seq<Table>, deps: seq<FKDep>): Graph {
    var nodes := Elements(Keys(tables));
    Graph(nodes, KeptEdges(nodes, deps))
  }

  /** The graph the documentation talks about. */
  ghost function DepGraph(tables: seq<Table>, deps: seq<FKDep>): Graph {
    var nodes := Elements(Keys(tables));
    Graph(nodes, RealEdges(nodes, deps))
  }

  /** No two different foreign keys share a joined key. */
  ghost predicate EdgeKeysUnambiguous(tables: seq<Table>, deps: seq<FKDep>) {
    var edges := DepGraph(tables, deps).edges;
    forall e, f :: e in edges && f in edges && EdgeKey(e) == EdgeKey(f) ==> e == f
  }

  lemma {:induction false} KeptFromDeps(nodes: set<string>, deps: seq<FKDep>)
    ensures KeptEdges(nodes, deps) <= RealEdges(nodes, deps)
  {
    if deps != [] {
      var init := deps[..|deps| - 1];
      KeptFromDeps(nodes, init);
      assert deps == init + [deps[|deps| - 1]];
    }
  }

  lemma {:induction false} KeptOncePerKey(nodes: set<string>, deps: seq<FKDep>, e: Edge, f: Edge)
    requires e in KeptEdges(nodes, deps) && f in KeptEdges(nodes, deps) && EdgeKey(e) == EdgeKey(f)
    ensures e == f
  {
    var init := deps[..|deps| - 1];
    var kept := KeptEdges(nodes, init);
    if e in kept && f in kept {
      KeptOncePerKey(nodes, init, e, f);
    }
  }

  lemma {:induction false} KeptForEachKey(nodes: set<string>, deps: seq<FKDep>, e: Edge) returns (f: Edge)
    requires e in RealEdges(nodes, deps)
    ensures f in KeptEdges(nodes, deps) && EdgeKey(f) == EdgeKey(e)
  {
    var init := deps[..|deps| - 1];
    assert deps == init + [deps[|deps| - 1]];
    var kept := KeptEdges(nodes, init);
    if e in RealEdges(nodes, init) {
      f := KeptForEachKey(nodes, init, e);
    } else if EdgeKey(e) in EdgeKeys(kept) {
      f :| f in kept && EdgeKey(f) == EdgeKey(e);
    } else {
      f := e;
    }
  }

  lemma KeptIsWellFormed(tables: seq<Table>, deps: seq<FKDep>)
    ensures WellFormed(KeptGraph(tables, deps)) && WellFormed(DepGraph(tables, deps))
  {
    KeptFromDeps(Elements(Keys(tables)), deps);
  }

  /** The code sorts the real foreign-key graph exactly when the joined keys are unambiguous. */
  lemma KeptIsReal(tables: seq<Table>, deps: seq<FKDep>)
    ensures KeptGraph(tables, deps) == DepGraph(tables, deps) <==> EdgeKeysUnambiguous(tables, deps)
  {
    var nodes := Elements(Keys(tables));
    var kept := KeptEdges(nodes, deps);
    var wanted := RealEdges(nodes, deps);
    KeptFromDeps(nodes, deps);
    if EdgeKeysUnambiguous(tables, deps) {
      forall e | e in wanted ensures e in kept {
        var f := KeptForEachKey(nodes, deps, e);
      }
    } else {
      var e, f :| e in wanted && f in wanted && EdgeKey(e) == EdgeKey(f) && e != f;
      if e in kept && f in kept {
        KeptOncePerKey(nodes, deps, e, f);
      }
    }
  }

  predicate NulFree(s: string) {
    '\0' !in s
  }

  lemma EdgeKeyInjective(e: Edge, f: Edge)
    requires NulFree(e.parent) && NulFree(f.parent) && EdgeKey(e) == EdgeKey(f)
    ensures e == f
  {
    FirstSeparatorSplits('\0', e.parent, f.parent, e.child, f.child);
  }

  /** PostgreSQL identifiers cannot contain NUL, so catalog tables are always unambiguous. */
  lemma NulFreeIsUnambiguous(tables: seq<Table>, deps: seq<FKDep>)
    requires forall t :: t in tables ==> NulFree(t.schema) && NulFree(t.name)
    ensures EdgeKeysUnambiguous(tables, deps)
  {
    forall k | k in Keys(tables) ensures NulFree(k) {
      var i :| 0 <= i < |tables| && Keys(tables)[i] == k;
      assert tables[i] in tables;
    }
    var edges := DepGraph(tables, deps).edges;
    forall e, f | e in edges && f in edges && EdgeKey(e) == EdgeKey(f) ensures e == f {
      EdgeKeyInjective(e, f);
    }
  }

  /** With NULs in names two different foreign keys can share a joined key, and the code drops one. */
  lemma EdgeKeyNotInjective()
    ensures var e := Edge(Key("a", "b"), Key("c", "d\"\0\"e\".\"f"));
            var f := Edge(Key("a", "b\"\0\"c\".\"d"), Key("e", "f"));
            e != f && EdgeKey(e) == EdgeKey(f)
  {
  }

  // ---------- the mutable graph ----------

  /** Tables by key; a later table replaces an earlier one with the same key. */
  function ByKey(tables: seq<Table>): map<string, Table> {
    if tables == [] then map[]
    else ByKey(tables[..|tables| - 1])[tables[|tables| - 1].QualifiedName() := tables[|tables| - 1]]
  }

  lemma {:induction false} ByKeyFacts(tables: seq<Table>)
    ensures ByKey(tables).Keys == Elements(Keys(tables))
    ensures forall k :: k in ByKey(tables) ==> ByKey(tables)[k] in tables && ByKey(tables)[k].QualifiedName() == k
  {
    if tables != [] {
      var init := tables[..|tables| - 1];
      ByKeyFacts(init);
      assert Keys(tables) == Keys(init) + [tables[|tables| - 1].QualifiedName()];
    }
  }

  /** The number of `n`'s parents that are not in `done`. */
  ghost function Waiting(g: Graph, done: set<string>, n: string): nat {
    |Parents(g, n) - done|
  }

  ghost predicate DegreeOf(g: Graph, done: set<string>, indegrees: map<string, int>, n: string) {
    n in indegrees && indegrees[n] == Waiting(g, done, n)
  }

  /** Every node's in-degree is the number of its distinct parents not yet emitted. */
  ghost predicate Degrees(g: Graph, done: set<string>, indegrees: map<string, int>) {
    indegrees.Keys == g.nodes && forall n {:trigger DegreeOf(g, done, indegrees, n)} :: n in g.nodes ==> DegreeOf(g, done, indegrees, n)
  }

  /** Every parent lists each of its children once. */
  ghost predicate ChildLists(g: Graph, children: map<string, seq<string>>) {
    && (forall p, c :: p in children && c in children[p] ==> Edge(p, c) in g.edges)
    && (forall e :: e in g.edges ==> e.parent in children && e.child in children[e.parent])
    && forall p :: p in children ==> Distinct(children[p])
  }

  function ListOf(children: map<string, seq<string>>, p: string): seq<string> {
    if p in children then children[p] else []
  }

  lemma ZeroMeansReady(g: Graph, done: set<string>, indegrees: map<string, int>, n: string)
    requires Degrees(g, done, indegrees) && n in g.nodes
    ensures n in indegrees && indegrees[n] >= 0 && (indegrees[n] == 0 <==> Parents(g, n) <= done)
  {
    assert DegreeOf(g, done, indegrees, n);
    if Parents(g, n) <= done {
      assert Parents(g, n) - done == {};
    } else {
      var p :| p in Parents(g, n) && p !in done;
      assert p in Parents(g, n) - done;
    }
  }

  lemma AddedEdgeWaiting(g: Graph, e: Edge, n: string)
    requires e !in g.edges && Relevant(g.nodes, e)
    ensures Waiting(g.(edges := g.edges + {e}), {}, n) == Waiting(g, {}, n) + if e.child == n then 1 else 0
  {
    var next := g.(edges := g.edges + {e});
    assert Parents(g, n) - {} == Parents(g, n) && Parents(next, n) - {} == Parents(next, n);
    assert e == Edge(e.parent, e.child);
    if e.child == n {
      assert Parents(next, n) == Parents(g, n) + {e.parent};
      assert e.parent !in Parents(g, n);
    } else {
      assert Parents(next, n) == Parents(g, n);
    }
  }

  lemma AddedEdgeDegrees(g: Graph, e: Edge, indegrees: map<string, int>)
    requires Degrees(g, {}, indegrees) && e !in g.edges && Relevant(g.nodes, e)
    ensures Degrees(g.(edges := g.edges + {e}), {}, indegrees[e.child := indegrees[e.child] + 1])
  {
    hide Waiting;
    var next := g.(edges := g.edges + {e});
    var after := indegrees[e.child := indegrees[e.child] + 1];
    forall n | n in g.nodes ensures DegreeOf(next, {}, after, n) {
      assert DegreeOf(g, {}, indegrees, n);
      AddedEdgeWaiting(g, e, n);
    }
  }

  lemma AddedEdgeChildren(g: Graph, e: Edge, children: map<string, seq<string>>)
    requires WellFormed(g) && ChildLists(g, children) && e !in g.edges && Relevant(g.nodes, e)
    ensures WellFormed(g.(edges := g.edges + {e}))
    ensures EdgeKeys(g.edges + {e}) == EdgeKeys(g.edges) + {EdgeKey(e)}
    ensures ChildLists(g.(edges := g.edges + {e}), children[e.parent := ListOf(children, e.parent) + [e.child]])
  {
    assert e == Edge(e.parent, e.child);
    assert e.child !in ListOf(children, e.parent);
  }

  lemma EmittedWaiting(g: Graph, done: set<string>, p: string, n: string)
    requires p in g.nodes && p !in done
    ensures Waiting(g, done, n) == Waiting(g, done + {p}, n) + if Edge(p, n) in g.edges then 1 else 0
  {
    if Edge(p, n) in g.edges {
      assert Parents(g, n) - done == (Parents(g, n) - (done + {p})) + {p};
    } else {
      assert Parents(g, n) - done == Parents(g, n) - (done + {p});
    }
  }

  lemma Listed(g: Graph, children: map<string, seq<string>>, p: string, n: string)
    requires ChildLists(g, children)
    ensures n in ListOf(children, p) <==> Edge(p, n) in g.edges
  {
  }

  lemma EmittedDegrees(g: Graph, done: set<string>, p: string, indegrees: map<string, int>,
                       children: map<string, seq<string>>, after: map<string, int>)
    requires Degrees(g, done, indegrees) && ChildLists(g, children)
    requires p in g.nodes && p !in done
    requires after.Keys == indegrees.Keys
    requires forall n :: n in after ==> after[n] == indegrees[n] - if n in ListOf(children, p) then 1 else 0
    ensures Degrees(g, done + {p}, after)
  {
    forall n | n in g.nodes ensures DegreeOf(g, done + {p}, after, n) {
      assert DegreeOf(g, done, indegrees, n);
      EmittedWaiting(g, done, p, n);
      Listed(g, children, p, n);
    }
  }

  /** Whatever has been emitted came after its parents. */
  ghost predicate ClosedUnderParents(g: Graph, done: set<string>) {
    forall n {:trigger Parents(g, n)} :: n in done ==> Parents(g, n) <= done
  }

  /** Emitting a ready node leaves the other ready nodes and adds its children that wait no more. */
  lemma EmittedReady(g: Graph, done: set<string>, p: string, children: map<string, seq<string>>,
                     after: map<string, int>, n: string)
    requires Degrees(g, done + {p}, after) && ChildLists(g, children) && WellFormed(g)
    requires p in Ready(g, done) && ClosedUnderParents(g, done)
    ensures n in Ready(g, done + {p}) <==>
              n in Ready(g, done) - {p} || (n in ListOf(children, p) && n in after && after[n] == 0)
  {
    Listed(g, children, p, n);
    if n in g.nodes {
      ZeroMeansReady(g, done + {p}, after, n);
      if Edge(p, n) in g.edges {
        assert p in Parents(g, n) && n != p;
      } else {
        assert p !in Parents(g, n);
        assert Parents(g, n) <= done <==> Parents(g, n) <= done + {p};
      }
    }
  }

  /** Sorting one child list in place keeps what the lists say. */
  lemma SortedListKeeps(g: Graph, children: map<string, seq<string>>, p: string)
    requires ChildLists(g, children) && p in children
    ensures ChildLists(g, children[p := Sort(children[p])])
  {
    SortedIsDistinct(Sort(children[p]));
  }

  class TopoGraph {
    var byKey: map<string, Table>
    var indegrees: map<string, int>
    var children: map<string, seq<string>>
    var seenEdges: set<string>

    ghost predicate Represents(g: Graph, done: set<string>)
      reads this
    {
      && WellFormed(g)
      && byKey.Keys == g.nodes
      && Degrees(g, done, indegrees)
      && ChildLists(g, children)
    }

    constructor (tables: seq<Table>)
      ensures byKey == ByKey(tables)
      ensures Represents(Graph(Elements(Keys(tables)), {}), {}) && seenEdges == {}
    {
      byKey, indegrees, children, seenEdges := map[], map[], map[], {};
      new;
      for i := 0 to |tables|
        invariant byKey == ByKey(tables[..i]) && indegrees.Keys == byKey.Keys
        invariant forall k :: k in indegrees ==> indegrees[k] == 0
        invariant children == map[] && seenEdges == {}
      {
        var key := tables[i].QualifiedName();
        assert tables[..i + 1][..i] == tables[..i];
        byKey := byKey[key := tables[i]];
        indegrees := indegrees[key := 0];
      }
      assert tables[..|tables|] == tables;
      ByKeyFacts(tables);
      ghost var g := Graph(Elements(Keys(tables)), {});
      forall n | n in g.nodes ensures DegreeOf(g, {}, indegrees, n) {
        assert Parents(g, n) - {} == {};
      }
    }

    predicate SkipDep(fromKey: string, toKey: string)
      reads this
    {
      || fromKey == toKey
      || fromKey !in byKey
      || toKey !in byKey
      || EdgeKey(Edge(toKey, fromKey)) in seenEdges
    }

    method AddDep(dep: FKDep, ghost g: Graph)
      requires Represents(g, {}) && seenEdges == EdgeKeys(g.edges)
      modifies this
      ensures byKey == old(byKey)
      ensures var e := DepEdge(dep);
              var keep := Relevant(g.nodes, e) && EdgeKey(e) !in EdgeKeys(g.edges);
              var next := if keep then g.(edges := g.edges + {e}) else g;
              Represents(next, {}) && seenEdges == EdgeKeys(next.edges)
    {
      hide DegreeOf, Waiting, Parents, ChildLists, WellFormed, EdgeKeys, EdgeKey;
      var fromKey := dep.child.QualifiedName();
      var toKey := dep.parent.QualifiedName();
      if SkipDep(fromKey, toKey) {
        return;
      }
      ghost var e := Edge(toKey, fromKey);
      NewEdgeKey(g.edges, e);
      AddedEdgeDegrees(g, e, indegrees);
      AddedEdgeChildren(g, e, children);
      seenEdges := seenEdges + {EdgeKey(Edge(toKey, fromKey))};
      children := children[toKey := ListOf(children, toKey) + [fromKey]];
      indegrees := indegrees[fromKey := indegrees[fromKey] + 1];
    }

    lemma NewEdgeKey(edges: set<Edge>, e: Edge)
      ensures EdgeKey(e) !in EdgeKeys(edges) ==> e !in edges
      ensures EdgeKeys(edges + {e}) == EdgeKeys(edges) + {EdgeKey(e)}
    {
    }

    method AddDeps(deps: seq<FKDep>, ghost nodes: set<string>)
      requires Represents(Graph(nodes, {}), {}) && seenEdges == {}
      modifies this
      ensures byKey == old(byKey)
      ensures Represents(Graph(nodes, KeptEdges(nodes, deps)), {})
    {
      for i := 0 to |deps|
        invariant byKey == old(byKey)
        invariant Represents(Graph(nodes, KeptEdges(nodes, deps[..i])), {})
        invariant seenEdges == EdgeKeys(KeptEdges(nodes, deps[..i]))
      {
        assert deps[..i + 1][..i] == deps[..i];
        AddDep(deps[i], Graph(nodes, KeptEdges(nodes, deps[..i])));
      }
      assert deps[..|deps|] == deps;
    }

    /** The keys of in-degree zero, sorted; the walk over the map takes any order. */
    method ReadyKeys() returns (ready: seq<string>)
      ensures StrictlySorted(ready)
      ensures forall n :: n in ready <==> n in indegrees && indegrees[n] == 0
    {
      ready := [];
      var todo := indegrees.Keys;
      while todo != {}
        invariant todo <= indegrees.Keys && Distinct(ready)
        invariant forall n :: n in ready <==> n in indegrees.Keys - todo && indegrees[n] == 0
        decreases todo
      {
        var key :| key in todo;
        todo := todo - {key};
        if indegrees[key] == 0 {
          ready := ready + [key];
        }
      }
      ready := Sort(ready);
    }

    /** Lowers the in-degree of each child and queues those that reach zero. */
    method ReleaseChildren(parent: string, ready: seq<string>) returns (released: seq<string>)
      requires StrictlySorted(ready)
      requires Distinct(ListOf(children, parent))
      requires forall c :: c in ListOf(children, parent) ==> c in indegrees && c !in ready
      modifies this`indegrees, this`children
      ensures children == old(if parent in children then children[parent := Sort(children[parent])] else children)
      ensures indegrees.Keys == old(indegrees.Keys)
      ensures forall n :: n in indegrees ==> indegrees[n] == old(indegrees[n]) - if n in old(ListOf(children, parent)) then 1 else 0
      ensures StrictlySorted(released)
      ensures forall n :: n in released <==> n in ready || (n in old(ListOf(children, parent)) && indegrees[n] == 0)
    {
      hide StrictlySorted, Distinct;
      released := ready;
      var list := ListOf(children, parent);
      var next := Sort(list);
      if parent in children {
        children := children[parent := next];
      }
      SortedIsDistinct(next);
      ghost var before := indegrees;
      ghost var lists := children;
      for i := 0 to |next|
        invariant children == lists
        invariant indegrees.Keys == before.Keys
        invariant forall n :: n in indegrees ==> indegrees[n] == before[n] - if n in next[..i] then 1 else 0
        invariant StrictlySorted(released)
        invariant forall n :: n in released <==> n in ready || (n in next[..i] && indegrees[n] == 0)
      {
        var child := next[i];
        NextChild(next, i);
        indegrees := indegrees[child := indegrees[child] - 1];
        if indegrees[child] == 0 {
          AddedKeyIsNew(released, child);
          released := Sort(released + [child]);
        }
      }
      assert next[..|next|] == next;
    }

    lemma NextChild(list: seq<string>, i: nat)
      requires Distinct(list) && i < |list|
      ensures list[i] !in list[..i] && forall n :: n in list[..i + 1] <==> n in list[..i] || n == list[i]
    {
      assert list[..i + 1] == list[..i] + [list[i]];
    }

    lemma AddedKeyIsNew(keys: seq<string>, key: string)
      requires StrictlySorted(keys) && key !in keys
      ensures Distinct(keys + [key])
    {
      SortedIsDistinct(keys);
    }

    method Sorted(ghost g: Graph) returns (out: seq<Table>)
      requires Represents(g, {})
      requires forall k :: k in byKey ==> byKey[k].QualifiedName() == k
      modifies this`indegrees, this`children
      ensures Keys(out) == KahnOrder(g)
      ensures forall t :: t in out ==> t in byKey.Values
      ensures Represents(g, Elements(KahnOrder(g)))
    {
      hide Waiting, DegreeOf, Degrees, Parents, Ready, Emit, ClosedUnderParents, ChildLists;
      ghost var done: set<string> := {};
      var ready := ReadyKeys();
      InitiallyReady(g, indegrees, ready);
      out := [];
      assert Keys(out) + Emit(g, {}) == Emit(g, {});
      while |ready| > 0
        invariant Represents(g, done)
        invariant EmittedSoFar(g, done, ready, Keys(out))
        invariant forall t :: t in out ==> t in byKey.Values
        decreases g.nodes - done
      {
        var head := ready[0];
        HeadOfReady(ready, g, done);
        ready := ready[1..];
        ghost var emitted := Keys(out);
        out := out + [byKey[head]];
        assert Keys(out) == emitted + [head];
        ghost var before := indegrees;
        ghost var lists := children;
        ghost var rest := ready;
        NotWaiting(g, done, head, lists, before, rest);
        ready := ReleaseChildren(head, ready);
        EmittedDegrees(g, done, head, before, lists, indegrees);
        if head in lists { SortedListKeeps(g, lists, head); }
        EmittedStep(g, done, head, lists, indegrees, emitted, rest, ready);
        done := done + {head};
      }
      NothingReady(g, done, ready, Keys(out));
    }

    /** The keys of positive in-degree, sorted. */
    method StuckKeys() returns (stuck: seq<string>)
      ensures StrictlySorted(stuck)
      ensures forall n :: n in stuck <==> n in indegrees && indegrees[n] > 0
    {
      stuck := [];
      var todo := indegrees.Keys;
      while todo != {}
        invariant todo <= indegrees.Keys && Distinct(stuck)
        invariant forall n :: n in stuck <==> n in indegrees.Keys - todo && indegrees[n] > 0
        decreases todo
      {
        var key :| key in todo;
        todo := todo - {key};
        if indegrees[key] > 0 {
          stuck := stuck + [key];
        }
      }
      stuck := Sort(stuck);
    }
  }

  /** The loop state of the sort: `keys` were emitted, `ready` lists what is ready now. */
  ghost predicate EmittedSoFar(g: Graph, done: set<string>, ready: seq<string>, keys: seq<string>) {
    && done <= g.nodes && ClosedUnderParents(g, done)
    && StrictlySorted(ready)
    && (forall n :: n in ready <==> n in Ready(g, done))
    && Elements(keys) == done
    && keys + Emit(g, done) == KahnOrder(g)
  }

  lemma InitiallyReady(g: Graph, indegrees: map<string, int>, ready: seq<string>)
    requires Degrees(g, {}, indegrees) && StrictlySorted(ready)
    requires forall n :: n in ready <==> n in indegrees && indegrees[n] == 0
    ensures EmittedSoFar(g, {}, ready, [])
  {
    hide Waiting, DegreeOf;
    forall n ensures n in ready <==> n in Ready(g, {}) {
      if n in g.nodes { ZeroMeansReady(g, {}, indegrees, n); }
    }
    assert [] + Emit(g, {}) == KahnOrder(g);
  }

  /** The children of a ready node are distinct nodes still waiting, so none of them is queued yet. */
  lemma NotWaiting(g: Graph, done: set<string>, head: string, children: map<string, seq<string>>,
                   indegrees: map<string, int>, rest: seq<string>)
    requires WellFormed(g) && ChildLists(g, children) && Degrees(g, done, indegrees)
    requires head in Ready(g, done) && forall n :: n in rest ==> n in Ready(g, done)
    ensures Distinct(ListOf(children, head))
    ensures forall c :: c in ListOf(children, head) ==> c in indegrees && c !in rest
  {
  }

  lemma EmittedStep(g: Graph, done: set<string>, head: string, children: map<string, seq<string>>,
                    after: map<string, int>, keys: seq<string>, rest: seq<string>, ready: seq<string>)
    requires WellFormed(g) && ChildLists(g, children) && Degrees(g, done + {head}, after)
    requires EmittedSoFar(g, done, [head] + rest, keys)
    requires head in Ready(g, done) && head == Least(Ready(g, done))
    requires forall n :: n in rest <==> n in Ready(g, done) - {head}
    requires StrictlySorted(ready)
    requires forall n :: n in ready <==> n in rest || (n in ListOf(children, head) && n in after && after[n] == 0)
    ensures EmittedSoFar(g, done + {head}, ready, keys + [head])
    ensures g.nodes - (done + {head}) < g.nodes - done
  {
    hide Waiting, DegreeOf, Degrees, ChildLists, StrictlySorted, ListOf, WellFormed;
    forall n ensures n in ready <==> n in Ready(g, done + {head}) {
      EmittedReady(g, done, head, children, after, n);
    }
    assert Elements(keys + [head]) == done + {head};
    assert keys + ([head] + Emit(g, done + {head})) == (keys + [head]) + Emit(g, done + {head});
  }

  lemma NothingReady(g: Graph, done: set<string>, ready: seq<string>, keys: seq<string>)
    requires EmittedSoFar(g, done, ready, keys) && ready == []
    ensures keys == KahnOrder(g) && done == Elements(KahnOrder(g))
  {
    assert Ready(g, done) == {};
    assert keys + [] == keys;
  }

  /** When nothing is ready any more, the nodes still waiting are exactly those never emitted. */
  lemma PositiveMeansStuck(g: Graph, indegrees: map<string, int>, n: string)
    requires Degrees(g, Elements(KahnOrder(g)), indegrees) && n in g.nodes
    ensures n in indegrees && (indegrees[n] > 0 <==> n in Stuck(g))
  {
    var order := KahnOrder(g);
    var done := Elements(order);
    ZeroMeansReady(g, done, indegrees, n);
    EmitFacts(g, {});
    assert {} + done == done;
    if n in done {
      var j :| 0 <= j < |order| && order[j] == n;
      assert {} + Elements(order[..j]) <= done;
    } else {
      assert n !in Ready(g, done);
    }
  }

  lemma HeadOfReady(ready: seq<string>, g: Graph, done: set<string>)
    requires |ready| > 0 && StrictlySorted(ready) && forall n :: n in ready <==> n in Ready(g, done)
    ensures Ready(g, done) != {} && ready[0] == Least(Ready(g, done))
    ensures ready[0] in g.nodes && ready[0] !in done
    ensures forall n :: n in ready[1..] <==> n in Ready(g, done) - {ready[0]}
    ensures StrictlySorted(ready[1..])
  {
    assert ready[0] in ready;
    assert IsLeast(ready[0], Ready(g, done)) by {
      forall y | y in Ready(g, done) ensures y == ready[0] || Less(ready[0], y) {
        HeadIsLeast(ready, y);
      }
    }
    LeastUnique(ready[0], Least(Ready(g, done)), Ready(g, done));
    SortedIsDistinct(ready);
    assert ready == [ready[0]] + ready[1..];
  }

  // ---------- the sort ----------

  ghost predicate DistinctKeys(tables: seq<Table>) {
    Distinct(Keys(tables))
  }

  /** What a successful sort returns: the tables, in the least topological order of their keys. */
  ghost predicate SortedTables(tables: seq<Table>, g: Graph, out: seq<Table>) {
    multiset(out) == multiset(tables) && Keys(out) == KahnOrder(g) && IsTopological(g, Keys(out))
  }

  /** What a failed sort reports: the keys on a cycle or below one, sorted. */
  ghost predicate CycleReport(g: Graph, stuck: seq<string>) {
    StrictlySorted(stuck) && forall n :: n in stuck <==> n in g.nodes && BelowCycle(g, n)
  }

  lemma StuckKeysReport(g: Graph, indegrees: map<string, int>, stuck: seq<string>)
    requires WellFormed(g) && Degrees(g, Elements(KahnOrder(g)), indegrees)
    requires StrictlySorted(stuck) && forall n :: n in stuck <==> n in indegrees && indegrees[n] > 0
    ensures CycleReport(g, stuck)
  {
    hide Waiting, DegreeOf;
    StuckIsBelowCycle(g);
    forall n ensures n in stuck <==> n in Stuck(g) {
      if n in g.nodes { PositiveMeansStuck(g, indegrees, n); }
    }
  }

  lemma AllEmitted(tables: seq<Table>, g: Graph, out: seq<Table>)
    requires g.nodes == Elements(Keys(tables)) && Keys(out) == KahnOrder(g)
    requires DistinctKeys(tables) && |KahnOrder(g)| == |g.nodes|
    requires forall t :: t in out ==> t in ByKey(tables).Values
    ensures SortedTables(tables, g, out)
  {
    KahnIsTopological(g);
    ByKeyFacts(tables);
    forall t | t in out ensures t in tables {
      var k :| k in ByKey(tables) && ByKey(tables)[k] == t;
    }
    PermutedByKey(out, tables);
  }

  /** Orders tables parents-first, or reports the keys it could not place. */
  method TopoSort(tables: seq<Table>, deps: seq<FKDep>) returns (r: Result<seq<Table>, seq<string>>)
    ensures r.Ok? <==> DistinctKeys(tables) && Acyclic(KeptGraph(tables, deps))
    ensures r.Ok? ==> SortedTables(tables, KeptGraph(tables, deps), r.value)
    ensures r.Err? ==> CycleReport(KeptGraph(tables, deps), r.error)
  {
    ghost var nodes := Elements(Keys(tables));
    ghost var g := Graph(nodes, KeptEdges(nodes, deps));
    assert g == KeptGraph(tables, deps);
    hide Elements, Keys, Waiting, DegreeOf, Degrees, Parents, ChildLists, WellFormed, KeptGraph, KeptEdges,
         Acyclic, CycleReport, SortedTables, ByKey, KahnOrder;
    ByKeyFacts(tables);
    var graph := new TopoGraph(tables);
    graph.AddDeps(deps, nodes);
    var out := graph.Sorted(g);
    Outcome(tables, deps, g, out);
    if |out| != |tables| {
      var stuck := graph.StuckKeys();
      StuckKeysReport(g, graph.indegrees, stuck);
      return Err(stuck);
    }
    return Ok(out);
  }

  /** Counting the output decides between success and failure. */
  lemma Outcome(tables: seq<Table>, deps: seq<FKDep>, g: Graph, out: seq<Table>)
    requires g == KeptGraph(tables, deps) && Keys(out) == KahnOrder(g)
    requires forall t :: t in out ==> t in ByKey(tables).Values
    ensures WellFormed(g)
    ensures |out| == |tables| <==> DistinctKeys(tables) && Acyclic(g)
    ensures |out| == |tables| ==> SortedTables(tables, g, out)
  {
    hide Elements, Keys, KeptEdges, Acyclic, SortedTables, ByKey, KahnOrder, WellFormed;
    SuccessMeansDistinct(tables, g);
    KeptIsWellFormed(tables, deps);
    CompleteIffAcyclic(g);
    assert |Keys(out)| == |out|;
    if |out| == |tables| {
      AllEmitted(tables, g, out);
    }
  }

  /** As many outputs as inputs happens only with distinct keys and no node left behind. */
  lemma SuccessMeansDistinct(tables: seq<Table>, g: Graph)
    requires g.nodes == Elements(Keys(tables))
    ensures |KahnOrder(g)| == |tables| <==> DistinctKeys(tables) && |KahnOrder(g)| == |g.nodes|
  {
    var keys := Keys(tables);
    EmitFacts(g, {});
    DistinctSize(KahnOrder(g));
    SubsetSize(Elements(KahnOrder(g)), g.nodes);
    ElementsSize(keys);
  }

  lemma {:induction false} ElementsSize<T>(s: seq<T>)
    ensures |Elements(s)| <= |s|
    ensures |Elements(s)| == |s| <==> Distinct(s)
  {
    if s != [] {
      var init := s[..|s| - 1];
      var last := s[|s| - 1];
      ElementsSize(init);
      assert Elements(s) == Elements(init) + {last};
      if last in init {
        var i :| 0 <= i < |init| && init[i] == last;
        assert s[i] == s[|s| - 1];
      }
      assert Distinct(s) ==> Distinct(init);
    }
  }

  /** Lists over the same distinct keys, drawn from the same tables, are permutations. */
  lemma PermutedByKey(out: seq<Table>, tables: seq<Table>)
    requires Distinct(Keys(out)) && Distinct(Keys(tables))
    requires Elements(Keys(out)) == Elements(Keys(tables))
    requires forall t :: t in out ==> t in tables
    ensures multiset(out) == multiset(tables)
  {
    forall t ensures t in out <==> t in tables {
      if t in tables {
        var i :| 0 <= i < |tables| && tables[i] == t;
        assert Keys(tables)[i] in Elements(Keys(out));
        var j :| 0 <= j < |out| && Keys(out)[j] == Keys(tables)[i];
        assert out[j] in tables;
        var k :| 0 <= k < |tables| && tables[k] == out[j];
        assert Keys(tables)[k] == Keys(tables)[i];
      }
    }
    OnceEach(out);
    OnceEach(tables);
    forall t ensures multiset(out)[t] == multiset(tables)[t] {}
  }

  lemma {:induction false} OnceEach(tables: seq<Table>)
    requires Distinct(Keys(tables))
    ensures forall t :: multiset(tables)[t] == if t in tables then 1 else 0
  {
    if tables != [] {
      var init := tables[..|tables| - 1];
      var last := tables[|tables| - 1];
      assert Keys(tables) == Keys(init) + [last.QualifiedName()];
      assert tables == init + [last];
      OnceEach(init);
      assert last !in init by {
        forall i | 0 <= i < |init| ensures init[i] != last {
          assert Keys(tables)[i] != Keys(tables)[|tables| - 1];
        }
      }
    }
  }

  /** Some foreign key runs along this edge. */
  ghost predicate Declares(deps: seq<FKDep>, e: Edge) {
    exists d :: d in deps && DepEdge(d) == e
  }

  lemma DeclaredAndRelevant(nodes: set<string>, deps: seq<FKDep>, e: Edge)
    ensures e in RealEdges(nodes, deps) <==> Relevant(nodes, e) && Declares(deps, e)
  {
  }

  /** The order depends on the set of keys and the set of foreign keys between them: input order,
      repeated dependencies and map iteration order play no part. */
  lemma SortIgnoresInputOrder(tables: seq<Table>, deps: seq<FKDep>, others: seq<Table>, otherDeps: seq<FKDep>,
                              out: seq<Table>, otherOut: seq<Table>)
    requires Elements(Keys(tables)) == Elements(Keys(others))
    requires forall e :: Declares(deps, e) <==> Declares(otherDeps, e)
    requires EdgeKeysUnambiguous(tables, deps) && EdgeKeysUnambiguous(others, otherDeps)
    requires SortedTables(tables, KeptGraph(tables, deps), out) && SortedTables(others, KeptGraph(others, otherDeps), otherOut)
    ensures Keys(out) == Keys(otherOut)
  {
    hide EdgeKeysUnambiguous, KahnOrder, IsTopological, KeptGraph, Declares;
    KeptIsReal(tables, deps);
    KeptIsReal(others, otherDeps);
    var nodes := Elements(Keys(tables));
    forall e ensures e in RealEdges(nodes, deps) <==> e in RealEdges(nodes, otherDeps) {
      DeclaredAndRelevant(nodes, deps, e);
      DeclaredAndRelevant(nodes, otherDeps, e);
    }
    assert RealEdges(nodes, deps) == RealEdges(nodes, otherDeps);
  }
}
