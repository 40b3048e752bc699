/** Foreign-key graphs over table keys, and the order Kahn's algorithm with a sorted
    ready list walks them in. Everything here is about sets of keys and edges, so it is
    blind to input order, duplicate dependencies and map iteration order. */
module KeyGraph {
  import opened Strings

  datatype Edge = Edge(parent: string, child: string)

  datatype Graph = Graph(nodes: set<string>, edges: set<Edge>)

  ghost predicate WellFormed(g: Graph) {
    forall e :: e in g.edges ==> e.parent in g.nodes && e.child in g.nodes && e.parent != e.child
  }

  function Parents(g: Graph, n: string): set<string> {
    set p | p in g.nodes && Edge(p, n) in g.edges
  }

  /** The unemitted nodes whose parents have all been emitted. */
  ghost function Ready(g: Graph, done: set<string>): set<string> {
    set n | n in g.nodes && n !in done && Parents(g, n) <= done
  }

  /** What the sort emits after `done`: always the least ready key. */
  ghost function Emit(g: Graph, done: set<string>): seq<string>
    decreases g.nodes - done
  {
    if Ready(g, done) == {} then []
    else
      var head := Least(Ready(g, done));
      [head] + Emit(g, done + {head})
  }

  ghost function KahnOrder(g: Graph): seq<string> {
    Emit(g, {})
  }

  // ---------- topological orders ----------

  /** A topological order of the whole graph: every node once, parents first. */
  ghost predicate IsTopological(g: Graph, t: seq<string>) {
    && Distinct(t)
    && Elements(t) == g.nodes
    && forall i, j :: 0 <= i < |t| && 0 <= j < |t| && Edge(t[i], t[j]) in g.edges ==> i < j
  }

  /** The same, one step at a time: each entry is ready after those before it. */
  ghost predicate Stepwise(g: Graph, done: set<string>, t: seq<string>)
    decreases |t|
  {
    if t == [] then g.nodes <= done
    else t[0] in Ready(g, done) && Stepwise(g, done + {t[0]}, t[1..])
  }

  lemma {:induction false} StepwiseFromTopological(g: Graph, t: seq<string>, k: nat)
    requires WellFormed(g) && IsTopological(g, t) && k <= |t|
    ensures Stepwise(g, Elements(t[..k]), t[k..])
    decreases |t| - k
  {
    var done := Elements(t[..k]);
    if k == |t| {
      assert t[..k] == t;
    } else {
      assert t[k] in Elements(t);
      assert t[k] !in done;
      forall p | p in Parents(g, t[k]) ensures p in done {
        assert p in Elements(t);
        var i :| 0 <= i < |t| && t[i] == p;
        assert i < k && t[..k][i] == p;
      }
      StepwiseFromTopological(g, t, k + 1);
      assert Elements(t[..k + 1]) == done + {t[k]};
      assert t[k..][1..] == t[k + 1..];
    }
  }

  /** First difference decides; neither list is a prefix of the other when their lengths agree. */
  ghost predicate LexBefore(a: seq<string>, b: seq<string>)
  {
    |a| > 0 && |b| > 0 && (Less(a[0], b[0]) || (a[0] == b[0] && LexBefore(a[1..], b[1..])))
  }

  lemma {:induction false} EmitIsLeast(g: Graph, done: set<string>, t: seq<string>)
    requires Stepwise(g, done, t)
    ensures Emit(g, done) == t || LexBefore(Emit(g, done), t)
    decreases |t|
  {
    if t != [] {
      var head := Least(Ready(g, done));
      if head == t[0] {
        EmitIsLeast(g, done + {head}, t[1..]);
        assert t == [t[0]] + t[1..];
      }
    }
  }

  /** Among all topological orders the emitted one is the lexicographically least. */
  lemma {:induction false} KahnOrderIsLeast(g: Graph, t: seq<string>)
    requires WellFormed(g) && IsTopological(g, t)
    ensures KahnOrder(g) == t || LexBefore(KahnOrder(g), t)
  {
    StepwiseFromTopological(g, t, 0);
    assert t[..0] == [] && t[0..] == t;
    assert Elements(t[..0]) == {};
    EmitIsLeast(g, {}, t);
  }

  /** Emitted keys are fresh nodes; nothing is ready afterwards; parents are emitted earlier. */
  lemma {:induction false} EmitFacts(g: Graph, done: set<string>)
    ensures var t := Emit(g, done);
      && Distinct(t)
      && (forall x :: x in t ==> x in g.nodes && x !in done)
      && Ready(g, done + Elements(t)) == {}
      && forall j :: 0 <= j < |t| ==> Parents(g, t[j]) <= done + Elements(t[..j])
    decreases g.nodes - done
  {
    var t := Emit(g, done);
    if Ready(g, done) == {} {
      assert done + Elements(t) == done;
    } else {
      var head := Least(Ready(g, done));
      var rest := Emit(g, done + {head});
      EmitFacts(g, done + {head});
      assert t == [head] + rest;
      assert done + Elements(t) == done + {head} + Elements(rest);
      forall j | 0 <= j < |t| ensures Parents(g, t[j]) <= done + Elements(t[..j]) {
        if j > 0 {
          assert t[..j] == [head] + rest[..j - 1];
          assert done + Elements(t[..j]) == done + {head} + Elements(rest[..j - 1]);
        }
      }
    }
  }

  lemma KahnParentsFirst(g: Graph, i: nat, j: nat)
    requires i < |KahnOrder(g)| && j < |KahnOrder(g)|
    requires Edge(KahnOrder(g)[i], KahnOrder(g)[j]) in g.edges
    ensures i < j
  {
    var t := KahnOrder(g);
    EmitFacts(g, {});
    assert t[i] in Elements(t[..j]);
    var k :| 0 <= k < j && t[..j][k] == t[i];
    assert t[k] == t[i];
  }

  /** If every node is emitted, the result is a topological order. */
  lemma KahnIsTopological(g: Graph)
    requires |KahnOrder(g)| == |g.nodes|
    ensures IsTopological(g, KahnOrder(g))
  {
    var t := KahnOrder(g);
    EmitFacts(g, {});
    DistinctSize(t);
    SubsetSize(Elements(t), g.nodes);
    forall i, j | 0 <= i < |t| && 0 <= j < |t| && Edge(t[i], t[j]) in g.edges ensures i < j {
      KahnParentsFirst(g, i, j);
    }
  }

  // ---------- cycles ----------

  /** A walk along edges, parent to child. */
  ghost predicate IsPath(g: Graph, p: seq<string>) {
    |p| > 0 && forall i :: 0 <= i < |p| - 1 ==> Edge(p[i], p[i + 1]) in g.edges
  }

  ghost predicate PathFromTo(g: Graph, p: seq<string>, a: string, b: string) {
    IsPath(g, p) && p[0] == a && p[|p| - 1] == b
  }

  ghost predicate Reaches(g: Graph, a: string, b: string) {
    exists p :: PathFromTo(g, p, a, b)
  }

  ghost predicate OnCycle(g: Graph, n: string) {
    exists p :: |p| > 1 && PathFromTo(g, p, n, n)
  }

  ghost predicate Acyclic(g: Graph) {
    forall n :: n in g.nodes ==> !OnCycle(g, n)
  }

  /** On a cycle, or reachable from one parent to child. */
  ghost predicate BelowCycle(g: Graph, n: string) {
    exists c :: OnCycle(g, c) && Reaches(g, c, n)
  }

  ghost function Stuck(g: Graph): set<string> {
    g.nodes - Elements(KahnOrder(g))
  }

  /** A walk into an emitted node was emitted in walking order. */
  lemma {:induction false} WalkEmitted(g: Graph, p: seq<string>, j: nat) returns (i: nat)
    requires WellFormed(g) && IsPath(g, p)
    requires j < |KahnOrder(g)| && KahnOrder(g)[j] == p[|p| - 1]
    ensures i < |KahnOrder(g)| && KahnOrder(g)[i] == p[0]
    ensures i <= j && (|p| > 1 ==> i < j)
    decreases |p|
  {
    var t := KahnOrder(g);
    if |p| == 1 {
      return j;
    }
    hide WellFormed, Parents, Ready, Emit, KahnOrder;
    var last := |p| - 1;
    assert Edge(p[last - 1], p[last - 1 + 1]) in g.edges;
    var k := ParentEmitted(g, p[last - 1], j);
    i := WalkEmitted(g, p[..last], k);
  }

  /** The parent of an emitted node was emitted before it. */
  lemma ParentEmitted(g: Graph, parent: string, j: nat) returns (k: nat)
    requires WellFormed(g) && j < |KahnOrder(g)| && Edge(parent, KahnOrder(g)[j]) in g.edges
    ensures k < j && KahnOrder(g)[k] == parent
  {
    hide Ready, Emit;
    var t := KahnOrder(g);
    EmitFacts(g, {});
    assert parent in Elements(t[..j]);
    k :| 0 <= k < j && t[..j][k] == parent;
  }

  lemma CycleNotEmitted(g: Graph, c: string, n: string)
    requires WellFormed(g) && OnCycle(g, c) && Reaches(g, c, n)
    ensures n !in KahnOrder(g)
  {
    var t := KahnOrder(g);
    if n in t {
      var j :| 0 <= j < |t| && t[j] == n;
      var p :| PathFromTo(g, p, c, n);
      var i := WalkEmitted(g, p, j);
      var cycle :| |cycle| > 1 && PathFromTo(g, cycle, c, c);
      var k := WalkEmitted(g, cycle, i);
      EmitFacts(g, {});
      assert false;
    }
  }

  /** A node left behind has a parent left behind. */
  lemma StuckParent(g: Graph, n: string) returns (p: string)
    requires WellFormed(g) && n in Stuck(g)
    ensures p in Stuck(g) && Edge(p, n) in g.edges
  {
    EmitFacts(g, {});
    var done := Elements(KahnOrder(g));
    assert {} + done == done;
    assert n !in Ready(g, done);
    p :| p in Parents(g, n) && p !in done;
  }

  lemma PrependEdge(g: Graph, q: string, p: seq<string>)
    requires IsPath(g, p) && Edge(q, p[0]) in g.edges
    ensures PathFromTo(g, [q] + p, q, p[|p| - 1])
  {
  }

  lemma RepeatIsCycle(g: Graph, q: string, p: seq<string>)
    requires IsPath(g, p) && Edge(q, p[0]) in g.edges && q in p
    ensures OnCycle(g, q)
  {
    PrependEdge(g, q, p);
    var k :| 0 <= k < |p| && p[k] == q;
    var cycle := ([q] + p)[..k + 2];
    assert cycle[|cycle| - 1] == p[k];
    assert PathFromTo(g, cycle, q, q);
  }

  lemma PrependFresh(q: string, p: seq<string>, bound: set<string>)
    requires Distinct(p) && q !in p && q in bound
    requires forall x :: x in p ==> x in bound
    ensures Distinct([q] + p) && |p| < |bound|
    ensures forall x :: x in [q] + p ==> x in bound
  {
    DistinctFits([q] + p, bound);
  }

  /** Walking back through stuck parents must repeat a node, because there are finitely many. */
  lemma {:induction false} WalkBack(g: Graph, stuck: set<string>, p: seq<string>, n: string)
    requires WellFormed(g) && stuck == Stuck(g)
    requires IsPath(g, p) && p[|p| - 1] == n && Distinct(p)
    requires forall x :: x in p ==> x in stuck
    ensures BelowCycle(g, n)
    decreases |stuck| - |p|
  {
    assert |p| > 0 && p[0] in p;
    hide WellFormed, IsPath, OnCycle, Stuck;
    var q := StuckParent(g, p[0]);
    PrependEdge(g, q, p);
    if q in p {
      RepeatIsCycle(g, q, p);
      assert Reaches(g, q, n);
    } else {
      PrependFresh(q, p, stuck);
      WalkBack(g, stuck, [q] + p, n);
    }
  }

  /** The nodes never emitted are exactly those on a cycle or below one. */
  lemma StuckIsBelowCycle(g: Graph)
    requires WellFormed(g)
    ensures forall n :: n in Stuck(g) <==> n in g.nodes && BelowCycle(g, n)
  {
    forall n ensures n in Stuck(g) <==> n in g.nodes && BelowCycle(g, n) {
      if n in Stuck(g) {
        WalkBack(g, Stuck(g), [n], n);
      } else if n in g.nodes && BelowCycle(g, n) {
        var c :| OnCycle(g, c) && Reaches(g, c, n);
        CycleNotEmitted(g, c, n);
      }
    }
  }

  /** Every node is emitted exactly when the graph has no cycle. */
  lemma CompleteIffAcyclic(g: Graph)
    requires WellFormed(g)
    ensures |KahnOrder(g)| == |g.nodes| <==> Acyclic(g)
  {
    hide WellFormed, Parents, Ready, Emit, KahnOrder, IsPath;
    var t := KahnOrder(g);
    EmittedAreNodes(g);
    DistinctSize(t);
    SubsetSize(Elements(t), g.nodes);
    StuckIsBelowCycle(g);
    if Acyclic(g) {
      forall n | n in g.nodes ensures n in t {
        if n !in t {
          assert n in Stuck(g);
          var c :| OnCycle(g, c) && Reaches(g, c, n);
          CycleInNodes(g, c);
        }
      }
      assert Elements(t) == g.nodes;
    } else {
      var n :| n in g.nodes && OnCycle(g, n);
      StaysPut(g, n);
      assert Reaches(g, n, n) && BelowCycle(g, n);
      assert n in Stuck(g);
    }
  }

  lemma StaysPut(g: Graph, n: string)
    ensures PathFromTo(g, [n], n, n)
  {
  }

  lemma EmittedAreNodes(g: Graph)
    ensures Distinct(KahnOrder(g)) && Elements(KahnOrder(g)) <= g.nodes
  {
    EmitFacts(g, {});
  }

  lemma CycleInNodes(g: Graph, c: string)
    requires WellFormed(g) && OnCycle(g, c)
    ensures c in g.nodes
  {
    var p :| |p| > 1 && PathFromTo(g, p, c, c);
    assert Edge(p[0], p[0 + 1]) in g.edges;
  }

  // ---------- restriction to a parent-closed set ----------

  ghost predicate ParentClosed(g: Graph, keep: set<string>) {
    keep <= g.nodes && forall e :: e in g.edges && e.child in keep ==> e.parent in keep
  }

  ghost function Restrict(g: Graph, keep: set<string>): Graph {
    Graph(g.nodes * keep, set e | e in g.edges && e.parent in keep && e.child in keep)
  }

  function Filter(s: seq<string>, keep: set<string>): seq<string> {
    if s == [] then []
    else (if s[0] in keep then [s[0]] else []) + Filter(s[1..], keep)
  }

  lemma RestrictReady(g: Graph, keep: set<string>, done: set<string>)
    requires ParentClosed(g, keep)
    ensures Ready(Restrict(g, keep), done * keep) == Ready(g, done) * keep
  {
    var r := Restrict(g, keep);
    forall n | n in keep ensures Parents(r, n) == Parents(g, n) && Parents(g, n) <= keep {
      forall p ensures p in Parents(r, n) <==> p in Parents(g, n) {}
    }
    forall n ensures n in Ready(r, done * keep) <==> n in Ready(g, done) * keep {}
  }

  lemma {:induction false} EmitCommutes(g: Graph, keep: set<string>, done: set<string>)
    requires ParentClosed(g, keep)
    ensures Filter(Emit(g, done), keep) == Emit(Restrict(g, keep), done * keep)
    decreases g.nodes - done
  {
    RestrictReady(g, keep, done);
    var r := Restrict(g, keep);
    if Ready(g, done) != {} {
      var head := Least(Ready(g, done));
      var rest := Emit(g, done + {head});
      EmitCommutes(g, keep, done + {head});
      assert Emit(g, done)[1..] == rest;
      if head in keep {
        assert (done + {head}) * keep == done * keep + {head};
        assert IsLeast(head, Ready(r, done * keep));
        LeastUnique(head, Least(Ready(r, done * keep)), Ready(r, done * keep));
      } else {
        assert (done + {head}) * keep == done * keep;
      }
    }
  }

  /** Sorting a parent-closed part of a graph gives the full order filtered to that part,
      whether or not the full sort succeeds. */
  lemma KahnCommutesWithRestriction(g: Graph, keep: set<string>)
    requires ParentClosed(g, keep)
    ensures KahnOrder(Restrict(g, keep)) == Filter(KahnOrder(g), keep)
  {
    EmitCommutes(g, keep, {});
    assert {} * keep == {};
  }

  lemma {:induction false} FilterMembers(s: seq<string>, keep: set<string>)
    ensures forall x :: x in Filter(s, keep) <==> x in s && x in keep
  {
    if s != [] {
      FilterMembers(s[1..], keep);
    }
  }
}
