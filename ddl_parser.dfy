/** `DDLParser.parse_ddl`, the SQL-to-Java/Kotlin type maps and the
    junction-table rule of `generate_entities`
    (src/microgenesis/generators/schema/ddl_parser.py). */
module DdlParser {
  import opened Wrappers
  import opened Strings
  import opened DdlScan
  import opened DdlModel
  import opened DdlLines
  import opened DdlRelationships

  /** The table `parse_ddl` builds from one statement match, before
      relationship inference. */
  function TableOf(m: TableMatch): Table {
    var b := Collect(Kinds(SplitParens(m.block)));
    Table(m.name, DdlCamel(m.name, true), b.columns, b.primaryKey, b.foreignKeys, [], false)
  }

  /** One table per statement, in the order the statements occur. */
  function ParsedTables(s: string): (ts: seq<Table>)
    ensures |ts| == |Statements(s, 0)|
  {
    var ms := Statements(s, 0);
    seq(|ms|, k requires 0 <= k < |ms| => TableOf(ms[k]))
  }

  /** The table of statement `i` follows the tables of the statements
      before it. */
  lemma ParsedStep(s: string, i: nat)
    requires i < |Statements(s, 0)|
    ensures ParsedTables(s)[..i + 1] == ParsedTables(s)[..i] + [TableOf(Statements(s, 0)[i])]
  {
    TakeSnoc(ParsedTables(s), i);
  }

  /** The loop of `parse_ddl` over the statement matches: one table per
      match, built from its name and its column block. */
  method ParseTables(content: string) returns (parsed: seq<Table>)
    ensures parsed == ParsedTables(content)
  {
    var matches := Statements(content, 0);
    parsed := [];
    for i := 0 to |matches|
      invariant parsed == ParsedTables(content)[..i]
    {
      var m := matches[i];
      var b := ParseColumnsAndConstraints(m.block);
      var table := Table(m.name, DdlCamel(m.name, true), b.columns, b.primaryKey, b.foreignKeys, [], false);
      assert table == TableOf(m);
      ParsedStep(content, i);
      parsed := parsed + [table];
    }
    assert parsed == ParsedTables(content)[..|matches|];
  }

  /** `parse_ddl(ddl_content)`: one table per CREATE TABLE statement, then
      relationship inference over all of them. */
  method ParseDdl(content: string) returns (tables: seq<Table>)
    ensures |tables| == |Statements(content, 0)|
    ensures tables == Inferred(ParsedTables(content))
  {
    var parsed := ParseTables(content);
    var a := new Table[|parsed|](k requires 0 <= k < |parsed| => parsed[k]);
    assert a[..] == parsed;
    ProcessRelationships(a);
    tables := a[..];
  }

  /** Each parsed table carries its statement's name, a non-empty `\w`
      word, its class name `_to_camel_case(name)`, and no relationships
      and no junction flag before inference. */
  lemma ParsedTableShape(s: string, k: nat)
    requires k < |ParsedTables(s)|
    ensures var t := ParsedTables(s)[k];
      t.name == Statements(s, 0)[k].name && |t.name| > 0
      && (forall c :: 0 <= c < |t.name| ==> IsWordChar(t.name[c]))
      && t.className == DdlCamel(t.name, true)
      && t.relationships == [] && !t.isJunctionTable
  {
  }

  /** Inference keeps each table's name, class, columns and keys, and only
      appends to its relationships. */
  lemma InferenceOnlyAppends(ts: seq<Table>, t: nat)
    requires t < |ts|
    ensures SameSkeleton(Inferred(ts)[t], ts[t])
    ensures Inferred(ts)[t].relationships == ts[t].relationships + NewRelationships(ts, t)
  {
  }

  // ---------------------------------------------------------------------
  // The users statement of the parser's test schema
  // (tests/test_ddl_parser.py): the block ends at the `)` of VARCHAR(50)

  /** A line break and the blanks that indent each column line. */
  const Indent: string := "\n                "

  /** The first column line of the users table. */
  const IdLine: string := "id INT AUTO_INCREMENT " + "PRIMARY" + " " + "KEY"

  /** The second column line, cut before the `)` of its type. */
  const NameLine: string := "username VARCHAR(50"

  /** The text the statement pattern captures for the users table. */
  const UsersBlock: string := Indent + IdLine + "," + Indent + NameLine

  /** What follows the first `)` of the users statement. */
  const UsersTail: string := " NOT NULL," + Indent + "email VARCHAR(100) NOT NULL," + Indent
    + "created_at DATETIME NOT NULL DEFAULT CURRENT_TIMESTAMP\n            );"

  /** The users statement as the test writes it, from the table name on
      (`TableAt` reads it with `NameAndBlockAt` once past `CREATE TABLE`). */
  const UsersStatement: string := "users" + " " + "(" + UsersBlock + ")" + UsersTail

  /** The block stops inside `VARCHAR(50)`: `email` and `created_at` are
      never read. */
  lemma UsersBlockTruncated()
    ensures NameAndBlockAt(UsersStatement, 0).Some?
    ensures NameAndBlockAt(UsersStatement, 0).value.name == "users"
    ensures NameAndBlockAt(UsersStatement, 0).value.block == UsersBlock
  {
    UsersBlockHasNoParen(UsersBlock);
    assert forall k :: 0 <= k < |"users"| ==> IsWordChar("users"[k]);
    BlockOfParts("users", " ", UsersBlock, UsersTail);
  }

  lemma UsersBlockHasNoParen(b: string)
    requires b == UsersBlock
    ensures forall k :: 0 <= k < |b| ==> b[k] != ')'
  {
    var a, n := Indent + IdLine, Indent + NameLine;
    UsersLineChars(a, n);
    assert b == a + "," + n;
    forall k | 0 <= k < |b| ensures b[k] != ')' {
      if k < |a| { assert b[k] == a[k]; } else if k > |a| { assert b[k] == n[k - |a| - 1]; }
    }
  }

  /** The inline PRIMARY KEY of the `id` line. */
  lemma IdLinePrimaryKey(l: string)
    requires l == IdLine
    ensures HasSpacedPair(l, "primary", "key") && '(' !in l
  {
    SpacedPairOfParts("id INT AUTO_INCREMENT ", "PRIMARY", "KEY", "primary", "key");
    IdLineHasNoParen(l);
  }

  lemma IdLineHasNoParen(l: string)
    requires l == IdLine
    ensures forall k :: 0 <= k < |l| ==> l[k] != '('
  {
  }

  /** The `username` line, cut before its `)`, lacks in either case each
      letter named here. */
  lemma NameLineLetters(l: string)
    requires l == "username VARCHAR(50"
    ensures forall k :: 0 <= k < |l| ==> LowerStr(l)[k] !in "pfoikd"
  {
    assert LowerStr(l) == "username varchar(50";
  }

  /** So it mentions no key or constraint, ... */
  lemma NameLineNoKeys(l: string)
    requires l == "username VARCHAR(50"
    ensures !HasSpacedPair(l, "primary", "key") && !HasSpacedPair(l, "foreign", "key")
    ensures !ContainsWord(l, "constraint") && !ContainsWord(l, "index") && !ContainsWord(l, "key")
  {
    NameLineLetters(l);
    KeywordAbsent(l, "primary", 0);
    KeywordAbsent(l, "foreign", 0);
    KeywordAbsent(l, "constraint", 1);
    KeywordAbsent(l, "index", 0);
    KeywordAbsent(l, "key", 0);
  }

  /** ... and is a nullable VARCHAR column without a default. */
  lemma NameLineColumn(l: string)
    requires l == "username VARCHAR(50"
    ensures ColumnOf(l) == Some(Column("username", DdlCamel("username", false), "VARCHAR", true, None))
  {
    NameLineLetters(l);
    KeywordAbsent(l, "not", 1);
    KeywordAbsent(l, "default", 0);
    NameLineDef(l);
    PlainColumn(l, "username", "VARCHAR");
    UpperCaseType("VARCHAR");
  }

  /** An upper-case type token is kept as written. */
  lemma UpperCaseType(t: string)
    requires t == "VARCHAR"
    ensures UpperStr(t) == t
  {
  }

  /** The column name and type token of the `username` line. */
  lemma NameLineDef(l: string)
    requires l == "username VARCHAR(50"
    ensures ColumnDef(l) == Some(("username", "VARCHAR"))
  {
    NameLineWords(l);
    NameLineSize(l);
    assert l[0..8] == "username" && l[9..16] == "VARCHAR";
    assert ColumnDefAt(l, 0) == Some(("username", "VARCHAR"));
  }

  /** Where the words of the `username` line end. */
  lemma NameLineWords(l: string)
    requires l == "username VARCHAR(50"
    ensures SkipQuote(l, 0) == 0 && SkipWord(l, 0) == 8 && SkipQuote(l, 8) == 8
      && SkipSpaces(l, 8) == 9 && SkipWord(l, 9) == 16
  {
    SkipWhileTo(l, 0, 8, IsWordChar);
    SkipWhileTo(l, 8, 9, IsSpace);
    SkipWhileTo(l, 9, 16, IsWordChar);
  }

  /** `(50` lacks its `)`, so the type token is the bare word. */
  lemma NameLineSize(l: string)
    requires l == "username VARCHAR(50"
    ensures TypeEnd(l, 16) == 16
  {
    SkipWhileTo(l, 16, 16, IsSpace);
    SkipWhileTo(l, 17, 17, IsSpace);
    assert SkipDigits(l, 17) == 19;
  }

  /** The block splits at its one comma into the `id` line and the cut
      `username` line, each indented. */
  lemma UsersBlockLines()
    ensures SplitParens(UsersBlock) == [Indent + IdLine, Indent + NameLine]
  {
    var a, b := Indent + IdLine, Indent + NameLine;
    UsersLineChars(a, b);
    assert ',' !in a && '(' !in a && ')' !in a && ',' !in b;
    assert UsersBlock == a + "," + b;
    SplitTwo(a, b);
  }

  lemma UsersLineChars(a: string, b: string)
    requires a == Indent + IdLine && b == Indent + NameLine
    ensures forall k :: 0 <= k < |a| ==> a[k] !in ",()"
    ensures forall k :: 0 <= k < |b| ==> b[k] !in ",)"
  {
    assert forall k :: 0 <= k < |Indent| ==> Indent[k] == '\n' || Indent[k] == ' ';
    assert forall k :: 0 <= k < |IdLine| ==> IdLine[k] !in ",()";
    assert forall k :: 0 <= k < |NameLine| ==> NameLine[k] !in ",)";
    forall k | 0 <= k < |a| ensures a[k] !in ",()" {
      if k < |Indent| { assert a[k] == Indent[k]; } else { assert a[k] == IdLine[k - |Indent|]; }
    }
    forall k | 0 <= k < |b| ensures b[k] !in ",)" {
      if k < |Indent| { assert b[k] == Indent[k]; } else { assert b[k] == NameLine[k - |Indent|]; }
    }
  }

  /** The indentation is blank, and both lines start and end with a
      non-blank. */
  lemma IndentBlank()
    ensures forall k :: 0 <= k < |Indent| ==> IsSpace(Indent[k])
    ensures Strip(Indent + IdLine) == IdLine && Strip(Indent + NameLine) == NameLine
  {
    assert forall k :: 0 <= k < |Indent| ==> IsSpace(Indent[k]);
    StripPadded(Indent, IdLine);
    StripPadded(Indent, NameLine);
  }

  /** The `id` line adds nothing. */
  lemma IdLineAdds()
    ensures Contribution(Classify(Indent + IdLine)) == Block([], [], [])
  {
    IndentBlank();
    IdLinePrimaryKey(IdLine);
    InlinePrimaryKeyVanishes(Indent + IdLine);
  }

  /** The cut `username` line adds one column. */
  lemma NameLineAdds()
    ensures Classify(Indent + NameLine)
      == ColumnLine(Some(Column("username", DdlCamel("username", false), "VARCHAR", true, None)))
  {
    IndentBlank();
    NameLineNoKeys(NameLine);
    NameLineColumn(NameLine);
  }

  /** So the block yields the one column and no key. */
  lemma UsersBlockColumns()
    ensures Collect(Kinds(SplitParens(UsersBlock)))
      == Block([Column("username", DdlCamel("username", false), "VARCHAR", true, None)], [], [])
  {
    UsersBlockLines();
    IdLineAdds();
    NameLineAdds();
    CollectNothingThenColumn(Kinds(SplitParens(UsersBlock)),
      Column("username", DdlCamel("username", false), "VARCHAR", true, None));
  }

  /** The users table as parsed: only the `username` column, and neither a
      primary key nor a foreign key, where the test schema declares four
      columns and the key `id`. */
  lemma UsersTableOfTest()
    ensures NameAndBlockAt(UsersStatement, 0).Some?
    ensures var t := TableOf(NameAndBlockAt(UsersStatement, 0).value);
      t.name == "users"
      && t.columns == [Column("username", DdlCamel("username", false), "VARCHAR", true, None)]
      && t.primaryKey == [] && t.foreignKeys == []
  {
    UsersBlockTruncated();
    UsersBlockColumns();
  }

  // ---------------------------------------------------------------------
  // Type mapping

  /** The Java types a column can be given. */
  const JavaTypeNames: set<string> := {"Integer", "Long", "Double", "Boolean", "java.time.LocalDate",
    "java.time.LocalTime", "java.time.LocalDateTime", "byte[]", "String"}

  /** The Kotlin types a column can be given. */
  const KotlinTypeNames: set<string> := {"Int", "Long", "Double", "Boolean", "java.time.LocalDate",
    "java.time.LocalTime", "java.time.LocalDateTime", "ByteArray", "String"}

  /** `_map_sql_to_java_type`: the first branch whose keywords occur in the
      lower-cased type wins; every type gets one of the Java names. */
  function JavaType(sqlType: string): (r: string)
    ensures r in JavaTypeNames
  {
    var t := LowerStr(sqlType);
    if Contains(t, "int") || Contains(t, "tinyint") || Contains(t, "smallint") || Contains(t, "mediumint") then "Integer"
    else if Contains(t, "bigint") then "Long"
    else if Contains(t, "decimal") || Contains(t, "numeric") || Contains(t, "float") then "Double"
    else if Contains(t, "double") then "Double"
    else if Contains(t, "boolean") || Contains(t, "bit") then "Boolean"
    else if Contains(t, "date") then "java.time.LocalDate"
    else if Contains(t, "time") then "java.time.LocalTime"
    else if Contains(t, "datetime") || Contains(t, "timestamp") then "java.time.LocalDateTime"
    else if Contains(t, "blob") || Contains(t, "binary") then "byte[]"
    else "String"
  }

  /** `_map_sql_to_kotlin_type`: the same branches with Kotlin names; every
      type gets one of them. */
  function KotlinType(sqlType: string): (r: string)
    ensures r in KotlinTypeNames
  {
    var t := LowerStr(sqlType);
    if Contains(t, "int") || Contains(t, "tinyint") || Contains(t, "smallint") || Contains(t, "mediumint") then "Int"
    else if Contains(t, "bigint") then "Long"
    else if Contains(t, "decimal") || Contains(t, "numeric") || Contains(t, "float") then "Double"
    else if Contains(t, "double") then "Double"
    else if Contains(t, "boolean") || Contains(t, "bit") then "Boolean"
    else if Contains(t, "date") then "java.time.LocalDate"
    else if Contains(t, "time") then "java.time.LocalTime"
    else if Contains(t, "datetime") || Contains(t, "timestamp") then "java.time.LocalDateTime"
    else if Contains(t, "blob") || Contains(t, "binary") then "ByteArray"
    else "String"
  }

  /** A text containing `p` contains every part of `p`. */
  lemma ContainsPart(s: string, p: string, q: string, off: nat)
    requires OccursAt(p, q, off) && Contains(s, p)
    ensures Contains(s, q)
  {
    var i :| 0 <= i <= |s| && OccursAt(s, p, i);
    forall k | 0 <= k < |q|
      ensures s[i + off + k] == q[k]
    {
      assert s[i..i + |p|][off + k] == p[off..off + |q|][k];
    }
    assert s[i + off..i + off + |q|] == q;
    assert OccursAt(s, q, i + off);
  }

  /** The keywords tested after `int` and `date`/`time` that contain them. */
  lemma Parts(tinyint: string, smallint: string, mediumint: string, bigint: string, datetime: string, timestamp: string)
    requires tinyint == "tinyint" && smallint == "smallint" && mediumint == "mediumint"
    requires bigint == "bigint" && datetime == "datetime" && timestamp == "timestamp"
    ensures OccursAt(tinyint, "int", 4) && OccursAt(smallint, "int", 5) && OccursAt(mediumint, "int", 6)
    ensures OccursAt(bigint, "int", 3) && OccursAt(datetime, "date", 0) && OccursAt(timestamp, "time", 0)
  {
    assert tinyint[4..7] == "int";
    assert smallint[5..8] == "int";
    assert mediumint[6..9] == "int";
    assert bigint[3..6] == "int";
    assert datetime[0..4] == "date";
    assert timestamp[0..4] == "time";
  }

  /** Every type that contains one of the longer keywords also contains
      the shorter keyword tested before it. */
  lemma KeywordInclusions(t: string)
    ensures Contains(t, "tinyint") || Contains(t, "smallint") || Contains(t, "mediumint") || Contains(t, "bigint")
      ==> Contains(t, "int")
    ensures Contains(t, "datetime") ==> Contains(t, "date")
    ensures Contains(t, "timestamp") ==> Contains(t, "time")
  {
    Parts("tinyint", "smallint", "mediumint", "bigint", "datetime", "timestamp");
    if Contains(t, "tinyint") { ContainsPart(t, "tinyint", "int", 4); }
    if Contains(t, "smallint") { ContainsPart(t, "smallint", "int", 5); }
    if Contains(t, "mediumint") { ContainsPart(t, "mediumint", "int", 6); }
    if Contains(t, "bigint") { ContainsPart(t, "bigint", "int", 3); }
    if Contains(t, "datetime") { ContainsPart(t, "datetime", "date", 0); }
    if Contains(t, "timestamp") { ContainsPart(t, "timestamp", "time", 0); }
  }

  /** BIGINT is not mapped to a 64-bit type: every type containing
      `bigint` contains `int`, which is tested first. */
  lemma BigintIsInteger(sqlType: string)
    requires Contains(LowerStr(sqlType), "bigint")
    ensures JavaType(sqlType) == "Integer" && KotlinType(sqlType) == "Int"
  {
    KeywordInclusions(LowerStr(sqlType));
  }

  /** The `Long` and `LocalDateTime` branches can never be taken: what
      they test for is always caught by an earlier branch. */
  lemma UnreachableBranches(sqlType: string)
    ensures JavaType(sqlType) != "Long" && JavaType(sqlType) != "java.time.LocalDateTime"
    ensures KotlinType(sqlType) != "Long" && KotlinType(sqlType) != "java.time.LocalDateTime"
  {
    KeywordInclusions(LowerStr(sqlType));
  }

  /** The Kotlin map is the Java map with `Int` for `Integer` and
      `ByteArray` for `byte[]`. */
  lemma KotlinFollowsJava(sqlType: string)
    ensures KotlinType(sqlType) ==
      if JavaType(sqlType) == "Integer" then "Int"
      else if JavaType(sqlType) == "byte[]" then "ByteArray"
      else JavaType(sqlType)
  {
  }

  /** `String` is the fallback: exactly the types containing none of the
      keywords that can decide a branch. */
  lemma StringFallback(sqlType: string)
    ensures JavaType(sqlType) == "String" <==>
      var t := LowerStr(sqlType);
      !Contains(t, "int") && !Contains(t, "decimal") && !Contains(t, "numeric") && !Contains(t, "float")
      && !Contains(t, "double") && !Contains(t, "boolean") && !Contains(t, "bit") && !Contains(t, "date")
      && !Contains(t, "time") && !Contains(t, "blob") && !Contains(t, "binary")
  {
    KeywordInclusions(LowerStr(sqlType));
  }

  /** As written, a DATETIME column becomes a `LocalDate`: the `date` test
      comes before the `datetime` test. */
  lemma DatetimeIsDate(sqlType: string)
    requires var t := LowerStr(sqlType);
      Contains(t, "datetime") && !Contains(t, "int") && !Contains(t, "decimal") && !Contains(t, "numeric")
      && !Contains(t, "float") && !Contains(t, "double") && !Contains(t, "boolean") && !Contains(t, "bit")
    ensures JavaType(sqlType) == "java.time.LocalDate" && KotlinType(sqlType) == "java.time.LocalDate"
  {
    KeywordInclusions(LowerStr(sqlType));
  }

  /** As written, a TIMESTAMP column becomes a `LocalTime`: the `time` test
      comes before the `timestamp` test. */
  lemma TimestampIsTime(sqlType: string)
    requires var t := LowerStr(sqlType);
      Contains(t, "timestamp") && !Contains(t, "int") && !Contains(t, "decimal") && !Contains(t, "numeric")
      && !Contains(t, "float") && !Contains(t, "double") && !Contains(t, "boolean") && !Contains(t, "bit")
      && !Contains(t, "date")
    ensures JavaType(sqlType) == "java.time.LocalTime" && KotlinType(sqlType) == "java.time.LocalTime"
  {
    KeywordInclusions(LowerStr(sqlType));
  }

  /** The Java type map with each longer keyword tested before the shorter
      keyword it contains, so that its own branch can be taken; it gives
      the same Java names. */
  function JavaTypeOrdered(sqlType: string): (r: string)
    ensures r in JavaTypeNames
  {
    var t := LowerStr(sqlType);
    if Contains(t, "bigint") then "Long"
    else if Contains(t, "int") then "Integer"
    else if Contains(t, "decimal") || Contains(t, "numeric") || Contains(t, "float") then "Double"
    else if Contains(t, "double") then "Double"
    else if Contains(t, "boolean") || Contains(t, "bit") then "Boolean"
    else if Contains(t, "datetime") || Contains(t, "timestamp") then "java.time.LocalDateTime"
    else if Contains(t, "date") then "java.time.LocalDate"
    else if Contains(t, "time") then "java.time.LocalTime"
    else if Contains(t, "blob") || Contains(t, "binary") then "byte[]"
    else "String"
  }

  /** In the ordered map BIGINT is `Long`, and DATETIME and TIMESTAMP are
      `LocalDateTime` unless an earlier keyword occurs. */
  lemma OrderedMapsWideTypes(sqlType: string)
    ensures Contains(LowerStr(sqlType), "bigint") ==> JavaTypeOrdered(sqlType) == "Long"
    ensures var t := LowerStr(sqlType);
      (Contains(t, "datetime") || Contains(t, "timestamp")) && !Contains(t, "int") && !Contains(t, "decimal")
      && !Contains(t, "numeric") && !Contains(t, "float") && !Contains(t, "double") && !Contains(t, "boolean")
      && !Contains(t, "bit")
      ==> JavaTypeOrdered(sqlType) == "java.time.LocalDateTime"
  {
    KeywordInclusions(LowerStr(sqlType));
  }

  /** Apart from those three keywords the ordered map agrees with the map
      as written. */
  lemma OrderedAgreesElsewhere(sqlType: string)
    requires var t := LowerStr(sqlType);
      !Contains(t, "bigint") && !Contains(t, "datetime") && !Contains(t, "timestamp")
    ensures JavaTypeOrdered(sqlType) == JavaType(sqlType)
  {
    KeywordInclusions(LowerStr(sqlType));
  }

  // ---------------------------------------------------------------------
  // generate_entities

  /** Among the first `n` tables, `e` is the last non-junction table whose
      class name is `name`: a later table with the same class name replaces
      an earlier one's entity. */
  predicate LastEntityFor(tables: seq<Table>, n: nat, name: string, e: Table)
    requires n <= |tables|
  {
    exists i :: 0 <= i < n && tables[i] == e && !e.isJunctionTable && e.className == name
      && forall k :: i < k < n ==> tables[k].isJunctionTable || tables[k].className != name
  }

  /** `generate_entities(tables, language, framework)` without the code
      text: each generated entity is keyed by its table's class name and
      stands here for the table it was generated from. Junction tables are
      skipped; a language other than java or kotlin generates nothing. */
  method GenerateEntities(tables: seq<Table>, language: string) returns (entities: map<string, Table>)
    ensures language != "java" && language != "kotlin" ==> entities == map[]
    ensures language == "java" || language == "kotlin" ==>
      forall name :: name in entities <==>
        exists i :: 0 <= i < |tables| && !tables[i].isJunctionTable && tables[i].className == name
    ensures forall name :: name in entities ==> LastEntityFor(tables, |tables|, name, entities[name])
  {
    entities := map[];
    for i := 0 to |tables|
      invariant language != "java" && language != "kotlin" ==> entities == map[]
      invariant language == "java" || language == "kotlin" ==>
        forall name :: name in entities <==>
          exists k :: 0 <= k < i && !tables[k].isJunctionTable && tables[k].className == name
      invariant forall name :: name in entities ==> LastEntityFor(tables, i, name, entities[name])
    {
      var table := tables[i];
      if table.isJunctionTable {
        continue;
      }
      if language == "java" || language == "kotlin" {
        entities := entities[table.className := table];
      } else {
        continue;
      }
    }
  }
}
