/** Data transfer structures of a sync plan. */
module Models {
  import opened Strings

  /** A PostgreSQL table. Sizes and row counts come from count(*) and
      pg_total_relation_size, which are never negative. */
  datatype Table = Table(schema: string, name: string, sizeBytes: nat, rows: nat) {
    /** The key of the table in every planning map. Embedded quotes are not doubled. */
    function QualifiedName(): string {
      Key(schema, name)
    }
  }

  /** A foreign key: `child` (From) references `parent` (To). */
  datatype FKDep = FKDep(child: Table, parent: Table)

  /** A sequence and the table column it belongs to. */
  datatype Sequence = Sequence(schema: string, name: string, tableSchema: string, tableName: string, columnName: string) {
    function OwnedTable(): Table {
      Table(tableSchema, tableName, 0, 0)
    }
  }

  datatype Option<+T> = None | Some(value: T)

  datatype Result<+T, +E> = Ok(value: T) | Err(error: E)

  function Key(schema: string, name: string): string {
    "\"" + schema + "\".\"" + name + "\""
  }

  function Keys(tables: seq<Table>): (keys: seq<string>)
    ensures |keys| == |tables|
    ensures forall i :: 0 <= i < |tables| ==> keys[i] == tables[i].QualifiedName()
  {
    seq(|tables|, i requires 0 <= i < |tables| => tables[i].QualifiedName())
  }

  predicate QuoteFree(s: string) {
    '"' !in s
  }

  /** Keys identify tables when no name contains a double quote. */
  lemma KeyInjective(schemaA: string, nameA: string, schemaB: string, nameB: string)
    requires QuoteFree(schemaA) && QuoteFree(schemaB) && QuoteFree(nameA) && QuoteFree(nameB)
    requires Key(schemaA, nameA) == Key(schemaB, nameB)
    ensures schemaA == schemaB && nameA == nameB
  {
    var a := schemaA + "\"" + (".\"" + nameA + "\"");
    var b := schemaB + "\"" + (".\"" + nameB + "\"");
    assert Key(schemaA, nameA) == "\"" + a && Key(schemaB, nameB) == "\"" + b;
    assert a == Key(schemaA, nameA)[1..] && b == Key(schemaB, nameB)[1..];
    FirstSeparatorSplits('"', schemaA, schemaB, ".\"" + nameA + "\"", ".\"" + nameB + "\"");
    assert nameA + "\"" + "" == (".\"" + nameA + "\"")[2..];
    assert nameB + "\"" + "" == (".\"" + nameB + "\"")[2..];
    FirstSeparatorSplits('"', nameA, nameB, "", "");
  }

  /** A sequence belongs to the table with the same schema and name. */
  lemma OwnedTableIs(s: Sequence, t: Table)
    requires QuoteFree(s.tableSchema) && QuoteFree(s.tableName) && QuoteFree(t.schema) && QuoteFree(t.name)
    ensures s.OwnedTable().QualifiedName() == t.QualifiedName() <==> s.tableSchema == t.schema && s.tableName == t.name
  {
    if s.OwnedTable().QualifiedName() == t.QualifiedName() {
      KeyInjective(s.tableSchema, s.tableName, t.schema, t.name);
    }
  }

  /** What stands between schema and name in a key: quote, dot, quote. */
  const JOINT := "\".\""

  ghost predicate JointAt(text: string, i: nat) {
    i + |JOINT| <= |text| && text[i..i + |JOINT|] == JOINT
  }

  /** Another schema and name with the same key. */
  ghost predicate ReadsAlso(schema: string, name: string, otherSchema: string, otherName: string) {
    Key(otherSchema, otherName) == Key(schema, name) && (otherSchema != schema || otherName != name)
  }

  lemma KeyIsFramed(schema: string, name: string)
    ensures Key(schema, name) == "\"" + (schema + JOINT + name) + "\""
  {
  }

  lemma SameKeySameText(schema: string, name: string, otherSchema: string, otherName: string)
    ensures Key(otherSchema, otherName) == Key(schema, name) <==> otherSchema + JOINT + otherName == schema + JOINT + name
  {
    KeyIsFramed(schema, name);
    KeyIsFramed(otherSchema, otherName);
    var a, b := schema + JOINT + name, otherSchema + JOINT + otherName;
    assert a == Key(schema, name)[1..|Key(schema, name)| - 1] && b == Key(otherSchema, otherName)[1..|Key(otherSchema, otherName)| - 1];
  }

  /** A key belongs to one schema and name exactly when quote, dot, quote occurs in it only where they meet. */
  lemma KeyHasOneReading(schema: string, name: string)
    ensures (exists s, n :: ReadsAlso(schema, name, s, n)) <==> exists i: nat :: i != |schema| && JointAt(schema + JOINT + name, i)
  {
    hide Key;
    var text := schema + JOINT + name;
    if s, n :| ReadsAlso(schema, name, s, n) {
      SameKeySameText(schema, name, s, n);
      assert text == s + JOINT + n && JointAt(text, |s|);
      assert s == text[..|s|] && n == text[|s| + |JOINT|..];
      assert schema == text[..|schema|] && name == text[|schema| + |JOINT|..];
    }
    if i: nat :| i != |schema| && JointAt(text, i) {
      var s, n := text[..i], text[i + |JOINT|..];
      assert text == s + JOINT + n;
      SameKeySameText(schema, name, s, n);
      assert ReadsAlso(schema, name, s, n);
    }
  }

  /** With embedded quotes two different tables can share one key. */
  lemma KeyNotInjective()
    ensures Key("a", "b\".\"c") == Key("a\".\"b", "c")
    ensures Table("a", "b\".\"c", 0, 0) != Table("a\".\"b", "c", 0, 0)
  {
  }
}
