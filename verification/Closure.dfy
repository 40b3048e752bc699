/** Which tables a sync covers: the requested ones and everything they reference,
    as pgschema/filter.go computes it. */
module Closure {
  import opened Strings
  import opened Models

  ghost function KeySet(tables: seq<Table>): set<string> {
    Elements(Keys(tables))
  }

  lemma KeySetAppend(tables: seq<Table>, t: Table)
    ensures KeySet(tables + [t]) == KeySet(tables) + {t.QualifiedName()}
  {
    assert Keys(tables + [t]) == Keys(tables) + [t.QualifiedName()];
  }

  lemma KeySetHead(tables: seq<Table>)
    requires |tables| > 0
    ensures KeySet(tables) == KeySet(tables[1..]) + {tables[0].QualifiedName()}
  {
    assert Keys(tables) == [tables[0].QualifiedName()] + Keys(tables[1..]);
  }

  // ---------- looking tables up by the text of a request ----------

  /** A request names a table by its bare name or by schema.name, unquoted. */
  predicate Names(raw: string, t: Table) {
    raw == t.name || raw == t.schema + "." + t.name
  }

  /** Read as the catalog writes it: without dots in names, a dotted request is the schema, then the name,
      and an undotted one is the name alone. */
  lemma NamesReads(schema: string, name: string, t: Table)
    requires '.' !in schema && '.' !in name && '.' !in t.schema && '.' !in t.name
    ensures Names(schema + "." + name, t) <==> t.schema == schema && t.name == name
    ensures Names(name, t) <==> t.name == name
  {
    DottedParts(schema, name, t.schema, t.name);
  }

  lemma DottedParts(schema: string, name: string, otherSchema: string, otherName: string)
    requires '.' !in schema && '.' !in name && '.' !in otherSchema && '.' !in otherName
    ensures schema + "." + name == otherSchema + "." + otherName <==> schema == otherSchema && name == otherName
    ensures schema + "." + name != otherName && name != otherSchema + "." + otherName
  {
    assert (schema + "." + name)[|schema|] == '.' && (otherSchema + "." + otherName)[|otherSchema|] == '.';
    if schema + "." + name == otherSchema + "." + otherName {
      FirstSeparatorSplits('.', schema, otherSchema, name, otherName);
    }
  }

  /** The last catalog table a request names; an ambiguous bare name takes the last one. */
  function Lookup(all: seq<Table>, raw: string): Option<Table> {
    if all == [] then None
    else if Names(raw, all[|all| - 1]) then Some(all[|all| - 1])
    else Lookup(all[..|all| - 1], raw)
  }

  lemma {:induction false} LookupIsLast(all: seq<Table>, raw: string)
    ensures Lookup(all, raw).None? <==> forall t :: t in all ==> !Names(raw, t)
    ensures Lookup(all, raw).Some? ==>
              exists i :: 0 <= i < |all| && all[i] == Lookup(all, raw).value && Names(raw, all[i])
                && forall j :: i < j < |all| ==> !Names(raw, all[j])
  {
    if all != [] {
      var last := |all| - 1;
      var init := all[..last];
      LookupIsLast(init, raw);
      assert all == init + [all[last]];
      if !Names(raw, all[last]) && Lookup(init, raw).Some? {
        var i :| 0 <= i < |init| && init[i] == Lookup(init, raw).value && Names(raw, init[i])
          && forall j :: i < j < |init| ==> !Names(raw, init[j]);
        assert all[i] == init[i] && forall j :: i < j < |all| ==> !Names(raw, all[j]);
      }
    }
  }

  method IndexTables(all: seq<Table>) returns (byName: map<string, Table>)
    ensures forall raw :: raw in byName <==> Lookup(all, raw).Some?
    ensures forall raw :: raw in byName ==> Lookup(all, raw) == Some(byName[raw])
  {
    byName := map[];
    for i := 0 to |all|
      invariant forall raw :: raw in byName <==> Lookup(all[..i], raw).Some?
      invariant forall raw :: raw in byName ==> Lookup(all[..i], raw) == Some(byName[raw])
    {
      assert all[..i + 1][..i] == all[..i];
      byName := byName[all[i].name := all[i]];
      byName := byName[all[i].schema + "." + all[i].name := all[i]];
    }
    assert all[..|all|] == all;
  }

  /** Tables by key; every entry is stored under its own key. */
  ghost predicate Keyed(selected: map<string, Table>) {
    forall k :: k in selected ==> selected[k].QualifiedName() == k
  }

  lemma Selecting(selected: map<string, Table>, key: string, t: Table)
    requires Keyed(selected) && key == t.QualifiedName() && key !in selected
    ensures Keyed(selected[key := t]) && selected[key := t].Keys == selected.Keys + {key}
    ensures selected[key := t].Values == selected.Values + {t}
  {
  }

  /** The keys of the tables the requests name. */
  ghost function SeedKeys(all: seq<Table>, requested: seq<string>): set<string> {
    set raw | raw in requested && Lookup(all, raw).Some? :: Lookup(all, raw).value.QualifiedName()
  }

  method SeedTables(all: seq<Table>, byName: map<string, Table>, requested: seq<string>)
    returns (r: Result<map<string, Table>, string>)
    requires forall raw :: raw in byName <==> Lookup(all, raw).Some?
    requires forall raw :: raw in byName ==> Lookup(all, raw) == Some(byName[raw])
    ensures r.Ok? <==> forall raw :: raw in requested ==> Lookup(all, raw).Some?
    ensures r.Ok? ==> Keyed(r.value) && r.value.Keys == SeedKeys(all, requested) && r.value.Values <= byName.Values
    ensures r.Err? ==> exists i :: 0 <= i < |requested| && requested[i] == r.error && Lookup(all, r.error).None?
                         && forall j :: 0 <= j < i ==> Lookup(all, requested[j]).Some?
  {
    var selected: map<string, Table> := map[];
    for i := 0 to |requested|
      invariant forall j :: 0 <= j < i ==> Lookup(all, requested[j]).Some?
      invariant Keyed(selected)
      invariant selected.Keys == SeedKeys(all, requested[..i])
      invariant forall k :: k in selected ==> selected[k] in byName.Values
    {
      var raw := requested[i];
      if raw !in byName {
        assert raw in requested;
        return Err(raw);
      }
      var table := byName[raw];
      assert requested[..i + 1] == requested[..i] + [raw];
      assert SeedKeys(all, requested[..i + 1]) == SeedKeys(all, requested[..i]) + {table.QualifiedName()};
      selected := selected[table.QualifiedName() := table];
    }
    assert requested[..|requested|] == requested;
    return Ok(selected);
  }

  // ---------- closing under child-to-parent edges ----------

  ghost predicate References(deps: seq<FKDep>, child: string, parent: string) {
    exists d :: d in deps && d.child.QualifiedName() == child && d.parent.QualifiedName() == parent
  }

  ghost predicate ClosedUnder(deps: seq<FKDep>, keys: set<string>) {
    forall c, p :: c in keys && References(deps, c, p) ==> p in keys
  }

  /** The least set that holds the seeds and every table they reference, directly or not. */
  ghost predicate IsClosure(deps: seq<FKDep>, seeds: set<string>, keys: set<string>) {
    && seeds <= keys
    && ClosedUnder(deps, keys)
    && forall larger: set<string> {:trigger ClosedUnder(deps, larger)} :: seeds <= larger && ClosedUnder(deps, larger) ==> keys <= larger
  }

  lemma ClosureUnique(deps: seq<FKDep>, seeds: set<string>, a: set<string>, b: set<string>)
    requires IsClosure(deps, seeds, a) && IsClosure(deps, seeds, b)
    ensures a == b
  {
    assert a <= b && b <= a;
  }

  /** Every key a foreign key points at. */
  function ParentKeys(deps: seq<FKDep>): set<string> {
    set d | d in deps :: d.parent.QualifiedName()
  }

  /** The parents of each child, in dependency order. */
  ghost predicate IndexesParents(deps: seq<FKDep>, parents: map<string, seq<Table>>) {
    && (forall c, t :: c in parents && t in parents[c] ==> exists d :: d in deps && d.child.QualifiedName() == c && d.parent == t)
    && forall d :: d in deps ==> d.child.QualifiedName() in parents && d.parent in parents[d.child.QualifiedName()]
  }

  method ParentIndex(deps: seq<FKDep>) returns (parents: map<string, seq<Table>>)
    ensures IndexesParents(deps, parents)
  {
    parents := map[];
    for i := 0 to |deps|
      invariant IndexesParents(deps[..i], parents)
    {
      var key := deps[i].child.QualifiedName();
      assert deps[..i + 1] == deps[..i] + [deps[i]];
      parents := parents[key := (if key in parents then parents[key] else []) + [deps[i].parent]];
    }
    assert deps[..|deps|] == deps;
  }

  /** Nothing outside the closure has been selected. */
  ghost predicate WithinClosure(deps: seq<FKDep>, seeds: set<string>, keys: set<string>) {
    forall larger: set<string> {:trigger ClosedUnder(deps, larger)} :: seeds <= larger && ClosedUnder(deps, larger) ==> keys <= larger
  }

  /** Selected tables outside the queue have had all their parents selected. */
  ghost predicate Expanded(deps: seq<FKDep>, selected: set<string>, queue: seq<Table>) {
    forall c, p :: c in selected && References(deps, c, p) && p !in selected ==> c in KeySet(queue)
  }

  /** The closure worklist. `selected` and `queue` belong to the expansion in progress. */
  class Worklist {
    var selected: map<string, Table>
    var queue: seq<Table>

    constructor (seeds: map<string, Table>)
      ensures selected == seeds && queue == []
    {
      selected, queue := seeds, [];
    }

    /** Queues the seed tables; the walk over the map takes any order. */
    method Fill()
      requires queue == [] && Keyed(selected)
      modifies this`queue
      ensures KeySet(queue) == selected.Keys
    {
      var todo := selected.Keys;
      while todo != {}
        invariant todo <= selected.Keys
        invariant KeySet(queue) == selected.Keys - todo
        decreases todo
      {
        var key :| key in todo;
        todo := todo - {key};
        KeySetAppend(queue, selected[key]);
        queue := queue + [selected[key]];
      }
    }

    method AppendMissingParents(parents: seq<Table>)
      requires Keyed(selected)
      modifies this
      ensures Keyed(selected)
      ensures selected.Keys == old(selected.Keys) + KeySet(parents)
      ensures selected.Values <= old(selected.Values) + Elements(parents)
      ensures KeySet(queue) == KeySet(old(queue)) + (selected.Keys - old(selected.Keys))
      ensures old(selected.Keys) == selected.Keys ==> queue == old(queue)
    {
      hide KeySet, Keyed;
      ghost var start := selected.Keys;
      ghost var values := selected.Values;
      assert KeySet(parents[..0]) == {} by { KeySetEmpty(); }
      for i := 0 to |parents|
        invariant Keyed(selected)
        invariant selected.Keys == start + KeySet(parents[..i])
        invariant selected.Values <= values + Elements(parents)
        invariant KeySet(queue) == KeySet(old(queue)) + (selected.Keys - start)
        invariant start == selected.Keys ==> queue == old(queue)
      {
        var parent := parents[i];
        var key := parent.QualifiedName();
        assert parents[..i + 1] == parents[..i] + [parent];
        KeySetAppend(parents[..i], parent);
        if key !in selected {
          KeySetAppend(queue, parent);
          Selecting(selected, key, parent);
          selected := selected[key := parent];
          queue := queue + [parent];
        }
      }
      assert parents[..|parents|] == parents;
    }

    method ExpandParents(parents: map<string, seq<Table>>, ghost deps: seq<FKDep>)
      requires queue == [] && Keyed(selected) && IndexesParents(deps, parents)
      modifies this
      ensures Keyed(selected)
      ensures IsClosure(deps, old(selected.Keys), selected.Keys)
      ensures selected.Values <= old(selected.Values) + ParentTables(deps)
    {
      hide KeySet, IndexesParents, WithinClosure, Expanded;
      ghost var seeds := selected.Keys;
      ghost var values := selected.Values;
      Fill();
      assert Expanded(deps, seeds, queue) && WithinClosure(deps, seeds, seeds) by { SeedState(deps, seeds, queue); }
      while |queue| > 0
        invariant Keyed(selected)
        invariant seeds <= selected.Keys <= seeds + ParentKeys(deps)
        invariant Expanded(deps, selected.Keys, queue)
        invariant WithinClosure(deps, seeds, selected.Keys)
        invariant KeySet(queue) <= selected.Keys
        invariant selected.Values <= values + ParentTables(deps)
        decreases seeds + ParentKeys(deps) - selected.Keys, |queue|
      {
        var key := queue[0].QualifiedName();
        ghost var before := queue;
        KeySetHead(queue);
        queue := queue[1..];
        var list := if key in parents then parents[key] else [];
        ListedParents(deps, parents, key, list);
        ghost var was := selected.Keys;
        ghost var rest := queue;
        AppendMissingParents(list);
        ExpansionStep(deps, seeds, was, key, KeySet(list), before, rest, queue);
      }
      FullyExpanded(deps, seeds, selected.Keys, queue);
    }
  }

  lemma KeySetEmpty()
    ensures KeySet([]) == {}
  {
  }

  /** The tables foreign keys point at. */
  function ParentTables(deps: seq<FKDep>): set<Table> {
    set d | d in deps :: d.parent
  }

  lemma SeedState(deps: seq<FKDep>, seeds: set<string>, queue: seq<Table>)
    requires KeySet(queue) == seeds
    ensures Expanded(deps, seeds, queue) && WithinClosure(deps, seeds, seeds)
  {
  }

  lemma FullyExpanded(deps: seq<FKDep>, seeds: set<string>, keys: set<string>, queue: seq<Table>)
    requires queue == [] && seeds <= keys && Expanded(deps, keys, queue) && WithinClosure(deps, seeds, keys)
    ensures IsClosure(deps, seeds, keys)
  {
    KeySetEmpty();
  }

  lemma ListedParents(deps: seq<FKDep>, parents: map<string, seq<Table>>, key: string, list: seq<Table>)
    requires IndexesParents(deps, parents)
    requires list == if key in parents then parents[key] else []
    ensures forall p :: p in KeySet(list) <==> References(deps, key, p)
    ensures KeySet(list) <= ParentKeys(deps)
    ensures Elements(list) <= ParentTables(deps)
  {
    forall p ensures p in KeySet(list) <==> References(deps, key, p) {
      if p in Keys(list) {
        var i :| 0 <= i < |list| && Keys(list)[i] == p;
        assert list[i] in list;
      }
      if References(deps, key, p) {
        var d :| d in deps && d.child.QualifiedName() == key && d.parent.QualifiedName() == p;
        var i :| 0 <= i < |list| && list[i] == d.parent;
        assert Keys(list)[i] == p;
      }
    }
  }

  lemma ExpansionStep(deps: seq<FKDep>, seeds: set<string>, was: set<string>, key: string, added: set<string>,
                      before: seq<Table>, rest: seq<Table>, after: seq<Table>)
    requires key in was && forall p :: p in added <==> References(deps, key, p)
    requires KeySet(before) == KeySet(rest) + {key}
    requires KeySet(after) == KeySet(rest) + ((was + added) - was)
    requires Expanded(deps, was, before) && WithinClosure(deps, seeds, was)
    ensures Expanded(deps, was + added, after) && WithinClosure(deps, seeds, was + added)
  {
  }

  // ---------- the result ----------

  /** The selected tables, ordered by key; the walk over the map takes any order. */
  method SortedTableValues(selected: map<string, Table>) returns (out: seq<Table>)
    requires Keyed(selected)
    ensures StrictlySorted(Keys(out)) && KeySet(out) == selected.Keys
    ensures forall t :: t in out ==> t in selected.Values
  {
    var keys: seq<string> := [];
    var todo := selected.Keys;
    while todo != {}
      invariant todo <= selected.Keys && Distinct(keys)
      invariant forall k :: k in keys <==> k in selected.Keys - todo
      decreases todo
    {
      var key :| key in todo;
      assert key !in keys;
      todo := todo - {key};
      keys := keys + [key];
    }
    keys := Sort(keys);
    assert forall i :: 0 <= i < |keys| ==> keys[i] in keys;
    out := seq(|keys|, i requires 0 <= i < |keys| => selected[keys[i]]);
    assert Keys(out) == keys;
  }

  /** What a successful selection of `requested` tables is. */
  ghost predicate Selection(all: seq<Table>, deps: seq<FKDep>, requested: seq<string>, out: seq<Table>) {
    && StrictlySorted(Keys(out))
    && IsClosure(deps, SeedKeys(all, requested), KeySet(out))
    && forall t :: t in out ==> t in all || t in ParentTables(deps)
  }

  method FKClosure(all: seq<Table>, deps: seq<FKDep>, requested: seq<string>) returns (r: Result<seq<Table>, string>)
    ensures r.Err? <==> exists raw :: raw in requested && forall t :: t in all ==> !Names(raw, t)
    ensures r.Err? ==> exists i :: 0 <= i < |requested| && requested[i] == r.error && Lookup(all, r.error).None?
                         && forall j :: 0 <= j < i ==> Lookup(all, requested[j]).Some?
    ensures r.Ok? && requested == [] ==> r.value == all
    ensures r.Ok? && requested != [] ==> Selection(all, deps, requested, r.value)
  {
    if |requested| == 0 {
      return Ok(all);
    }
    forall raw ensures Lookup(all, raw).None? <==> forall t :: t in all ==> !Names(raw, t) {
      LookupIsLast(all, raw);
    }
    var byName := IndexTables(all);
    var seeded := SeedTables(all, byName, requested);
    if seeded.Err? {
      return Err(seeded.error);
    }
    var parents := ParentIndex(deps);
    var work := new Worklist(seeded.value);
    work.ExpandParents(parents, deps);
    var out := SortedTableValues(work.selected);
    forall t | t in out ensures t in all || t in ParentTables(deps) {
      if t in seeded.value.Values {
        var raw :| raw in byName && byName[raw] == t;
        LookupIsLast(all, raw);
      }
    }
    return Ok(out);
  }
}
