/** SQL identifier and literal quoting (pgdb/ident.go, native/sequences.go,
    native/snapshot.go), proved against a lexer that reads the quoted text back. */
module Quoting {
  import opened Models

  // ---------- quoting ----------

  /** unicode.IsSpace. */
  predicate IsSpace(c: char) {
    var n := c as int;
    || 0x09 <= n <= 0x0d || n == 0x20 || n == 0x85 || n == 0xa0 || n == 0x1680
    || 0x2000 <= n <= 0x200a || n == 0x2028 || n == 0x2029 || n == 0x202f || n == 0x205f || n == 0x3000
  }

  /** In ASCII: tab to carriage return, and the space. */
  lemma AsciiSpaces(c: char)
    requires c as int < 0x80
    ensures IsSpace(c) <==> c in "\t\n\U{0B}\U{0C}\r "
  {
  }

  /** strings.TrimSpace leaves nothing. */
  predicate IsBlank(s: string) {
    forall c :: c in s ==> IsSpace(c)
  }

  function Doubled(quote: char, s: string): string {
    if s == "" then ""
    else (if s[0] == quote then [quote, quote] else [s[0]]) + Doubled(quote, s[1..])
  }

  function Quoted(quote: char, s: string): string {
    [quote] + Doubled(quote, s) + [quote]
  }

  datatype QuoteError = IdentifierRequired

  function QuoteIdent(s: string): Result<string, QuoteError> {
    if IsBlank(s) then Err(IdentifierRequired) else Ok(Quoted('"', s))
  }

  /** An ASCII name is refused exactly when it is empty or nothing but tabs, line ends and spaces. */
  lemma RefusedNames(s: string)
    requires forall c :: c in s ==> c as int < 0x80
    ensures QuoteIdent(s).Err? <==> forall c :: c in s ==> c in "\t\n\U{0B}\U{0C}\r "
  {
    hide IsSpace;
    forall c | c in s ensures IsSpace(c) <==> c in "\t\n\U{0B}\U{0C}\r " {
      AsciiSpaces(c);
    }
  }

  function QuotePair(schema: string, name: string): Result<string, QuoteError> {
    var left := QuoteIdent(schema);
    if left.Err? then left
    else
      var right := QuoteIdent(name);
      if right.Err? then right else Ok(left.value + "." + right.value)
  }

  function QuoteQualified(t: Table): Result<string, QuoteError> {
    QuotePair(t.schema, t.name)
  }

  function QuoteSQLLiteral(value: string): string {
    Quoted('\'', value)
  }

  function QuoteSequenceName(s: Sequence): Result<string, QuoteError> {
    QuotePair(s.schema, s.name)
  }

  const SETVAL := "SELECT setval("
  const COALESCE := "::regclass, COALESCE(MAX("
  const MAX := "), 1), MAX("
  const FROM := ") IS NOT NULL) FROM "

  function SequenceRepairSQL(s: Sequence): Result<string, QuoteError> {
    var sequence := QuoteSequenceName(s);
    if sequence.Err? then sequence
    else
      var table := QuoteQualified(s.OwnedTable());
      if table.Err? then table
      else
        var column := QuoteIdent(s.columnName);
        if column.Err? then column
        else Ok(SETVAL + QuoteSQLLiteral(sequence.value) + COALESCE + column.value + MAX + column.value + FROM + table.value)
  }

  // ---------- reading quoted text back ----------

  /** The text up to the closing quote, with doubled quotes halved, and what follows it:
      <delimited identifier body> of section 5.2 of ISO/IEC 9075-2. */
  function Body(quote: char, s: string): Option<(string, string)>
    decreases |s|
  {
    if s == "" then None
    else if s[0] != quote then
      match Body(quote, s[1..])
      case None => None
      case Some((value, rest)) => Some(([s[0]] + value, rest))
    else if |s| > 1 && s[1] == quote then
      match Body(quote, s[2..])
      case None => None
      case Some((value, rest)) => Some(([quote] + value, rest))
    else Some(("", s[1..]))
  }

  function Unquote(quote: char, s: string): Option<(string, string)> {
    if s != "" && s[0] == quote then Body(quote, s[1..]) else None
  }

  function Expect(prefix: string, s: string): Option<string> {
    if prefix <= s then Some(s[|prefix|..]) else None
  }

  /** Reads "schema"."name" and nothing more. */
  function ReadQualified(s: string): Option<(string, string)> {
    match Unquote('"', s)
    case None => None
    case Some((schema, afterSchema)) =>
      match Expect(".", afterSchema)
      case None => None
      case Some(afterDot) =>
        match Unquote('"', afterDot)
        case None => None
        case Some((name, rest)) => if rest == "" then Some((schema, name)) else None
  }

  /** The first quoted thing after a fixed text. */
  function ReadAfter(prefix: string, quote: char, s: string): Option<(string, string)> {
    match Expect(prefix, s)
    case None => None
    case Some(rest) => Unquote(quote, rest)
  }

  /** What the server sees in a repair statement: literal first, then the names inside it. */
  function ReadRepair(sql: string): Option<Sequence> {
    match ReadAfter(SETVAL, '\'', sql)
    case None => None
    case Some((literal, afterLiteral)) =>
      match ReadAfter(COALESCE, '"', afterLiteral)
      case None => None
      case Some((column, afterColumn)) =>
        match ReadAfter(MAX, '"', afterColumn)
        case None => None
        case Some((again, afterAgain)) =>
          match Expect(FROM, afterAgain)
          case None => None
          case Some(tableText) =>
            match (ReadQualified(literal), ReadQualified(tableText))
            case (Some((schema, name)), Some((tableSchema, tableName))) =>
              if again == column then Some(Sequence(schema, name, tableSchema, tableName, column)) else None
            case _ => None
  }

  // ---------- round trips ----------

  lemma {:induction false} BodyOfDoubled(quote: char, s: string, rest: string)
    requires rest == "" || rest[0] != quote
    ensures Body(quote, Doubled(quote, s) + [quote] + rest) == Some((s, rest))
  {
    var text := Doubled(quote, s) + [quote] + rest;
    if s == "" {
      assert text == [quote] + rest;
    } else {
      var tail := Doubled(quote, s[1..]) + [quote] + rest;
      BodyOfDoubled(quote, s[1..], rest);
      if s[0] == quote {
        assert text == [quote, quote] + tail;
        assert text[2..] == tail;
      } else {
        assert text == [s[0]] + tail;
        assert text[1..] == tail;
      }
      assert s == [s[0]] + s[1..];
    }
  }

  /** Quoted text reads back as the original, up to the closing quote. */
  lemma UnquoteQuoted(quote: char, s: string, rest: string)
    requires rest == "" || rest[0] != quote
    ensures Unquote(quote, Quoted(quote, s) + rest) == Some((s, rest))
  {
    BodyOfDoubled(quote, s, rest);
    assert (Quoted(quote, s) + rest)[1..] == Doubled(quote, s) + [quote] + rest;
  }

  lemma {:induction false} DoubledOfBody(quote: char, s: string)
    requires Body(quote, s).Some?
    ensures var (value, rest) := Body(quote, s).value;
            s == Doubled(quote, value) + [quote] + rest && (rest == "" || rest[0] != quote)
    decreases |s|
  {
    var (value, rest) := Body(quote, s).value;
    if s[0] != quote {
      DoubledOfBody(quote, s[1..]);
      assert value[1..] == Body(quote, s[1..]).value.0;
      assert s == [s[0]] + s[1..];
    } else if |s| > 1 && s[1] == quote {
      DoubledOfBody(quote, s[2..]);
      assert value[1..] == Body(quote, s[2..]).value.0;
      assert s == [quote, quote] + s[2..];
    } else {
      assert s == [quote] + s[1..];
    }
  }

  /** The reader accepts only what quoting writes: the two are inverse to each other. */
  lemma QuotedUnquote(quote: char, s: string)
    requires Unquote(quote, s).Some?
    ensures var (value, rest) := Unquote(quote, s).value; s == Quoted(quote, value) + rest
  {
    DoubledOfBody(quote, s[1..]);
    assert s == [quote] + s[1..];
  }

  lemma ReadQualifiedOfQuoted(schema: string, name: string)
    ensures ReadQualified(Quoted('"', schema) + "." + Quoted('"', name)) == Some((schema, name))
  {
    var right := Quoted('"', name);
    UnquoteQuoted('"', schema, "." + right);
    assert Quoted('"', schema) + "." + right == Quoted('"', schema) + ("." + right);
    assert ("." + right)[1..] == right;
    UnquoteQuoted('"', name, "");
    assert right + "" == right;
  }

  /** A qualified name that quoting accepts reads back as the same schema and name. */
  lemma QualifiedRoundTrip(t: Table)
    ensures QuoteQualified(t).Err? <==> IsBlank(t.schema) || IsBlank(t.name)
    ensures QuoteQualified(t).Ok? ==> ReadQualified(QuoteQualified(t).value) == Some((t.schema, t.name))
  {
    ReadQualifiedOfQuoted(t.schema, t.name);
  }

  /** Unlike the planning key, quoted names never collide. */
  lemma QualifiedInjective(a: Table, b: Table)
    requires QuoteQualified(a).Ok? && QuoteQualified(a) == QuoteQualified(b)
    ensures a.schema == b.schema && a.name == b.name
  {
    QualifiedRoundTrip(a);
    QualifiedRoundTrip(b);
  }

  lemma {:induction false} DoubledLength(quote: char, s: string)
    ensures |Doubled(quote, s)| >= |s|
    ensures quote !in s ==> Doubled(quote, s) == s
    ensures quote in s ==> |Doubled(quote, s)| > |s|
  {
    if s != "" {
      DoubledLength(quote, s[1..]);
      assert s == [s[0]] + s[1..];
    }
  }

  /** The statement in full, for names that need no escaping. */
  lemma RepairStatement(s: Sequence)
    requires forall c :: c in s.schema + s.name + s.tableSchema + s.tableName + s.columnName ==> c != '"' && c != '\''
    requires SequenceRepairSQL(s).Ok?
    ensures SequenceRepairSQL(s).value ==
              "SELECT setval(" + ("'" + Key(s.schema, s.name) + "'") + "::regclass, COALESCE(MAX("
              + ("\"" + s.columnName + "\"") + "), 1), MAX(" + ("\"" + s.columnName + "\"")
              + ") IS NOT NULL) FROM " + Key(s.tableSchema, s.tableName)
  {
    hide Quoted, Doubled, IsBlank, Key;
    var all := s.schema + s.name + s.tableSchema + s.tableName + s.columnName;
    UnescapedPair(s.schema, s.name, all);
    UnescapedPair(s.tableSchema, s.tableName, all);
    Unescaped(s.columnName, all);
    UnescapedLiteral(Key(s.schema, s.name));
  }

  lemma UnescapedPair(schema: string, name: string, all: string)
    requires forall c :: c in all ==> c != '"' && c != '\''
    requires forall c :: c in schema || c in name ==> c in all
    ensures QuotePair(schema, name).Ok? ==> QuotePair(schema, name).value == Key(schema, name)
    ensures '\'' !in Key(schema, name)
  {
    hide Quoted, Doubled, IsBlank;
    Unescaped(schema, all);
    Unescaped(name, all);
    KeyLayout(schema, name);
  }

  lemma UnescapedLiteral(text: string)
    requires '\'' !in text
    ensures QuoteSQLLiteral(text) == "'" + text + "'"
  {
    DoubledLength('\'', text);
  }

  lemma Unescaped(part: string, all: string)
    requires (forall c :: c in all ==> c != '"' && c != '\'') && forall c :: c in part ==> c in all
    ensures Quoted('"', part) == "\"" + part + "\"" && '\'' !in part
  {
    DoubledLength('"', part);
  }

  lemma KeyLayout(schema: string, name: string)
    ensures Key(schema, name) == ("\"" + schema + "\"") + "." + ("\"" + name + "\"")
  {
  }

  /** Exactly on quote-free names the planning key is the quoted name. */
  lemma KeyIsQuotedName(t: Table)
    requires QuoteQualified(t).Ok?
    ensures QuoteQualified(t).value == t.QualifiedName() <==> QuoteFree(t.schema) && QuoteFree(t.name)
  {
    DoubledLength('"', t.schema);
    DoubledLength('"', t.name);
    KeyLayout(t.schema, t.name);
    assert |QuoteQualified(t).value| == |Doubled('"', t.schema)| + |Doubled('"', t.name)| + 5;
    assert |t.QualifiedName()| == |t.schema| + |t.name| + 5;
  }

  lemma ReadAfterQuoted(prefix: string, quote: char, value: string, rest: string)
    requires rest == "" || rest[0] != quote
    ensures ReadAfter(prefix, quote, prefix + Quoted(quote, value) + rest) == Some((value, rest))
  {
    var text := prefix + Quoted(quote, value) + rest;
    assert text == prefix + (Quoted(quote, value) + rest);
    assert text[|prefix|..] == Quoted(quote, value) + rest;
    UnquoteQuoted(quote, value, rest);
  }

  /** The repair statement names exactly the sequence, column and table it was built from:
      undoing the literal and then the identifiers recovers all five names. */
  lemma RepairRoundTrip(s: Sequence)
    ensures SequenceRepairSQL(s).Ok? ==> ReadRepair(SequenceRepairSQL(s).value) == Some(s)
    ensures SequenceRepairSQL(s).Err? <==>
              IsBlank(s.schema) || IsBlank(s.name) || IsBlank(s.tableSchema) || IsBlank(s.tableName) || IsBlank(s.columnName)
  {
    hide Body, Unquote;
    if SequenceRepairSQL(s).Ok? {
      var sequence := QuoteSequenceName(s).value;
      var table := QuoteQualified(s.OwnedTable()).value;
      var column := Quoted('"', s.columnName);
      var afterAgain := FROM + table;
      var afterColumn := MAX + column + afterAgain;
      var afterLiteral := COALESCE + column + afterColumn;
      var sql := SETVAL + QuoteSQLLiteral(sequence) + afterLiteral;
      assert SequenceRepairSQL(s).value == sql;
      ReadAfterQuoted(SETVAL, '\'', sequence, afterLiteral);
      ReadAfterQuoted(COALESCE, '"', s.columnName, afterColumn);
      ReadAfterQuoted(MAX, '"', s.columnName, afterAgain);
      assert afterAgain[|FROM|..] == table;
      ReadQualifiedOfQuoted(s.schema, s.name);
      ReadQualifiedOfQuoted(s.tableSchema, s.tableName);
    }
  }
}
