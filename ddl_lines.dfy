/** The body of one CREATE TABLE block: the parenthesis-aware comma split
    (`_split_preserving_parentheses`) and the per-line classification into
    primary keys, foreign keys, ignored constraints and columns
    (`_parse_columns_and_constraints`). */
module DdlLines {
  import opened Wrappers
  import opened Strings
  import opened DdlScan
  import opened DdlModel

  // ---------------------------------------------------------------------
  // Comma splitting

  /** The parenthesis level after reading `c` at level `depth`. A ')' at
      level 0 leaves it at 0. */
  function NextDepth(depth: nat, c: char): nat {
    if c == '(' && depth == 0 then 1
    else if c == '(' then depth + 1
    else if c == ')' && depth > 1 then depth - 1
    else if c == ')' && depth == 1 then 0
    else depth
  }

  /** The parenthesis level at the end of `w`, starting from 0. */
  function Depth(w: string): nat
    decreases |w|
  {
    if |w| == 0 then 0 else NextDepth(Depth(w[..|w| - 1]), w[|w| - 1])
  }

  /** Every comma of `p` stands inside parentheses. */
  predicate NoTopComma(p: string) {
    forall k :: 0 <= k < |p| && p[k] == ',' ==> Depth(p[..k]) > 0
  }

  /** `result`, `current` and `paren_level` of the splitting loop. */
  datatype SplitState = SplitState(pieces: seq<string>, current: string, depth: nat)

  /** One turn of the splitting loop. */
  function Step(st: SplitState, c: char): SplitState {
    if c == ',' && st.depth == 0 then SplitState(st.pieces + [st.current], "", 0)
    else SplitState(st.pieces, st.current + [c], NextDepth(st.depth, c))
  }

  /** The loop state after reading all of `text`. */
  function Scan(text: string): SplitState
    decreases |text|
  {
    if |text| == 0 then SplitState([], "", 0)
    else Step(Scan(text[..|text| - 1]), text[|text| - 1])
  }

  /** The pieces `_split_preserving_parentheses` returns: an empty last piece
      is dropped. */
  function SplitParens(text: string): seq<string> {
    var st := Scan(text);
    if st.current != "" then st.pieces + [st.current] else st.pieces
  }

  method SplitPreservingParentheses(text: string) returns (result: seq<string>)
    ensures result == SplitParens(text)
  {
    result := [];
    var current := "";
    var level: nat := 0;
    for i := 0 to |text|
      invariant SplitState(result, current, level) == Scan(text[..i])
    {
      var c := text[i];
      if c == '(' && level == 0 {
        level := 1;
        current := current + [c];
      } else if c == '(' && level != 0 {
        level := level + 1;
        current := current + [c];
      } else if c == ')' && level > 1 {
        level := level - 1;
        current := current + [c];
      } else if c == ')' && level == 1 {
        level := 0;
        current := current + [c];
      } else if c == ',' && level == 0 {
        result := result + [current];
        current := "";
      } else {
        current := current + [c];
      }
      assert text[..i + 1][..i] == text[..i];
    }
    assert text[..|text|] == text;
    if current != "" {
      result := result + [current];
    }
  }

  /** The current piece started at level 0, so the level of the text read
      so far is the level of the current piece. */
  lemma {:induction false} ScanDepth(text: string)
    ensures Scan(text).depth == Depth(text) == Depth(Scan(text).current)
    decreases |text|
  {
    if |text| > 0 {
      var prefix := text[..|text| - 1];
      var c := text[|text| - 1];
      ScanDepth(prefix);
      var st := Scan(prefix);
      if !(c == ',' && st.depth == 0) {
        var cur := st.current + [c];
        assert cur[..|cur| - 1] == st.current;
      }
    }
  }

  /** No piece, finished or current, has a comma outside parentheses. */
  lemma {:induction false} ScanNoTopComma(text: string)
    ensures NoTopComma(Scan(text).current)
    ensures forall k :: 0 <= k < |Scan(text).pieces| ==> NoTopComma(Scan(text).pieces[k])
    decreases |text|
  {
    if |text| > 0 {
      var prefix := text[..|text| - 1];
      var c := text[|text| - 1];
      ScanNoTopComma(prefix);
      ScanDepth(prefix);
      var st := Scan(prefix);
      if !(c == ',' && st.depth == 0) {
        var cur := st.current + [c];
        forall k | 0 <= k < |cur| && cur[k] == ',' ensures Depth(cur[..k]) > 0 {
          if k < |st.current| {
            assert cur[..k] == st.current[..k];
          } else {
            assert cur[..k] == st.current;
          }
        }
      }
    }
  }

  /** The pieces and the current one, joined with commas, give back the
      text read so far; an empty current piece after some text means a
      piece was just finished. */
  lemma {:induction false} ScanJoin(text: string)
    ensures Join(Scan(text).pieces + [Scan(text).current], ",") == text
    ensures |text| > 0 && Scan(text).current == "" ==> |Scan(text).pieces| > 0
    decreases |text|
  {
    if |text| > 0 {
      var prefix := text[..|text| - 1];
      var c := text[|text| - 1];
      ScanJoin(prefix);
      var st := Scan(prefix);
      assert text == prefix + [c];
      assert Scan(text) == Step(st, c);
      if c == ',' && st.depth == 0 {
        JoinSnoc(st.pieces + [st.current], "", ",");
        assert Join(st.pieces + [st.current] + [""], ",") == prefix + "," + "";
      } else {
        JoinSnoc(st.pieces, st.current + [c], ",");
        JoinSnoc(st.pieces, st.current, ",");
        if |st.pieces| > 0 {
          assert Join(st.pieces, ",") + "," + (st.current + [c]) == (Join(st.pieces, ",") + "," + st.current) + [c];
        }
      }
    }
  }

  /** The text ends with a comma outside parentheses. */
  predicate EndsWithTopComma(text: string) {
    |text| > 0 && text[|text| - 1] == ',' && Depth(text[..|text| - 1]) == 0
  }

  /** Joining the pieces with commas gives the text back, less a final
      comma outside parentheses (whose empty last piece is dropped). */
  lemma SplitParensRoundTrip(text: string)
    ensures Join(SplitParens(text), ",") + (if EndsWithTopComma(text) then "," else "") == text
  {
    ScanJoin(text);
    var st := Scan(text);
    if |text| > 0 {
      var prefix := text[..|text| - 1];
      ScanDepth(prefix);
      assert st.current == "" <==> EndsWithTopComma(text);
      if st.current == "" {
        JoinSnoc(st.pieces, "", ",");
      }
    }
  }

  /** No piece holds a comma outside parentheses. */
  lemma SplitParensNoTopComma(text: string)
    ensures forall k :: 0 <= k < |SplitParens(text)| ==> NoTopComma(SplitParens(text)[k])
  {
    ScanNoTopComma(text);
  }

  /** Text without a comma only grows the current piece. */
  lemma {:induction false} ScanAfter(x: string, w: string)
    requires ',' !in w
    ensures Scan(x + w).pieces == Scan(x).pieces
    ensures Scan(x + w).current == Scan(x).current + w
    decreases |w|
  {
    if |w| == 0 {
      assert x + w == x;
    } else {
      var v := w[..|w| - 1];
      assert w == v + [w[|w| - 1]];
      assert (x + w)[..|x + w| - 1] == x + v;
      ScanAfter(x, v);
    }
  }

  /** Text without parentheses stays at level 0. */
  lemma {:induction false} DepthFlat(w: string)
    requires '(' !in w && ')' !in w
    ensures Depth(w) == 0
    decreases |w|
  {
    if |w| > 0 {
      var v := w[..|w| - 1];
      assert w == v + [w[|w| - 1]];
      DepthFlat(v);
    }
  }

  /** Two pieces around one comma: the first without parentheses, the
      second without a comma. */
  lemma SplitTwo(a: string, b: string)
    requires ',' !in a && '(' !in a && ')' !in a
    requires ',' !in b && b != ""
    ensures SplitParens(a + "," + b) == [a, b]
  {
    assert Scan(a) == SplitState([], a, 0) by {
      ScanAfter("", a);
      assert "" + a == a;
      ScanDepth(a);
      DepthFlat(a);
    }
    assert Scan(a + ",") == SplitState([a], "", 0) by {
      assert (a + ",")[..|a|] == a;
    }
    assert Scan(a + "," + b) == SplitState([a], b, Scan(a + "," + b).depth) by {
      ScanAfter(a + ",", b);
      assert "" + b == b;
    }
  }

  // ---------------------------------------------------------------------
  // Line classification

  /** `re.search(r'CONSTRAINT|INDEX|KEY', line, re.IGNORECASE)`. */
  predicate HasKeyWord(l: string) {
    ContainsWord(l, "constraint") || ContainsWord(l, "index") || ContainsWord(l, "key")
  }

  /** What one stripped line is taken for, in the order the parser tests:
      blank, PRIMARY KEY, FOREIGN KEY, any CONSTRAINT/INDEX/KEY, column. */
  datatype LineKind =
    | Blank
    | PrimaryKeyLine(keys: seq<string>)
    | ForeignKeyLine(fk: Option<ForeignKey>)
    | Ignored
    | ColumnLine(column: Option<Column>)

  /** The key names of a PRIMARY KEY group: the comma-separated pieces with
      blanks, then backticks and double quotes, trimmed. */
  function PrimaryKeyNames(group: string): (r: seq<string>)
    ensures |r| == CountChar(group, ',') + 1
    ensures forall k :: 0 <= k < |r| ==> ',' !in r[k]
  {
    var parts := Split(group, ',');
    SplitJoin(group, ',');
    seq(|parts|, k requires 0 <= k < |parts| => StripQuotes(Strip(parts[k])))
  }

  /** `FOREIGN KEY (...) REFERENCES t(...)`: every name of a key found is
      one or more word characters. */
  function ForeignKeyOf(l: string): (r: Option<ForeignKey>)
    ensures r.Some? ==> IsName(r.value.column) && IsName(r.value.referencedTable) && IsName(r.value.referencedColumn)
  {
    var col := ForeignKeyColumn(l);
    var table := ReferencedTable(l);
    var ref := ReferencedColumn(l);
    if col.Some? && table.Some? && ref.Some? then Some(ForeignKey(col.value, table.value, ref.value))
    else None
  }

  function ColumnOf(l: string): (r: Option<Column>)
    ensures r.Some? ==> (|r.value.name| > 0 && '_' !in r.value.fieldName
      && (r.value.nullable <==> !HasSpacedPair(l, "not", "null")))
  {
    match ColumnDef(l)
    case None => None
    case Some(def) =>
      var dflt := Default(l);
      DdlCamelSpec(def.0, false);
      Some(Column(def.0, DdlCamel(def.0, false), UpperStr(def.1),
        !HasSpacedPair(l, "not", "null"),
        if dflt.Some? then Some(Strip(dflt.value)) else None))
  }

  /** A column line without NOT NULL and DEFAULT is a nullable column
      without a default. */
  lemma PlainColumn(l: string, name: string, sqlType: string)
    requires ColumnDef(l) == Some((name, sqlType))
    requires !HasSpacedPair(l, "not", "null") && !ContainsWord(l, "default")
    ensures ColumnOf(l) == Some(Column(name, DdlCamel(name, false), UpperStr(sqlType), true, None))
  {
    NoDefault(l);
  }

  /** Which branch of the loop body a line takes. A blank line is skipped;
      a line that declares a column is read as one only when none of the
      key words occurs in it, so a column with an inline PRIMARY KEY is
      taken for a primary key line. */
  function Classify(line: string): (r: LineKind)
    ensures r.Blank? <==> Strip(line) == ""
    ensures r.PrimaryKeyLine? <==> Strip(line) != "" && HasSpacedPair(Strip(line), "primary", "key")
    ensures r.ForeignKeyLine? <==>
      (Strip(line) != "" && !HasSpacedPair(Strip(line), "primary", "key")
       && HasSpacedPair(Strip(line), "foreign", "key"))
    ensures r.ForeignKeyLine? ==> r.fk == ForeignKeyOf(Strip(line))
    ensures r.Ignored? <==>
      (Strip(line) != "" && !HasSpacedPair(Strip(line), "primary", "key")
       && !HasSpacedPair(Strip(line), "foreign", "key") && HasKeyWord(Strip(line)))
    ensures r.ColumnLine? <==>
      (Strip(line) != "" && !HasSpacedPair(Strip(line), "primary", "key")
       && !HasSpacedPair(Strip(line), "foreign", "key") && !HasKeyWord(Strip(line)))
    ensures r.ColumnLine? ==> r.column == ColumnOf(Strip(line))
  {
    var l := Strip(line);
    if l == "" then Blank
    else if HasSpacedPair(l, "primary", "key") then
      PrimaryKeyLine(match PrimaryKeyGroup(l)
                     case None => []
                     case Some(g) => PrimaryKeyNames(g))
    else if HasSpacedPair(l, "foreign", "key") then ForeignKeyLine(ForeignKeyOf(l))
    else if HasKeyWord(l) then Ignored
    else ColumnLine(ColumnOf(l))
  }

  // ---------------------------------------------------------------------
  // The columns, primary key and foreign keys of one block

  /** The three lists `_parse_columns_and_constraints` returns. */
  datatype Block = Block(columns: seq<Column>, primaryKey: seq<string>, foreignKeys: seq<ForeignKey>)

  /** What one line adds to each list. */
  function Contribution(kind: LineKind): Block {
    match kind
    case PrimaryKeyLine(keys) => Block([], keys, [])
    case ForeignKeyLine(Some(fk)) => Block([], [], [fk])
    case ColumnLine(Some(c)) => Block([c], [], [])
    case _ => Block([], [], [])
  }

  function Extend(b: Block, more: Block): Block {
    Block(b.columns + more.columns, b.primaryKey + more.primaryKey, b.foreignKeys + more.foreignKeys)
  }

  /** The kind of each line, in order. */
  function Kinds(lines: seq<string>): (r: seq<LineKind>)
    ensures |r| == |lines| && forall k :: 0 <= k < |lines| ==> r[k] == Classify(lines[k])
  {
    seq(|lines|, k requires 0 <= k < |lines| => Classify(lines[k]))
  }

  /** The lists after lines of the given kinds, in order. */
  function Collect(kinds: seq<LineKind>): Block
    decreases |kinds|
  {
    if |kinds| == 0 then Block([], [], [])
    else Extend(Collect(kinds[..|kinds| - 1]), Contribution(kinds[|kinds| - 1]))
  }

  /** Two lines: the first line's additions, then the second's. */
  lemma CollectTwo(k1: LineKind, k2: LineKind)
    ensures Collect([k1, k2]) == Extend(Extend(Block([], [], []), Contribution(k1)), Contribution(k2))
  {
    assert [k1][..0] == [];
    assert Collect([k1]) == Extend(Block([], [], []), Contribution(k1));
    assert [k1, k2][..1] == [k1];
  }

  /** Two lines, the first adding nothing and the second one column, give
      that column alone. */
  lemma CollectNothingThenColumn(kinds: seq<LineKind>, c: Column)
    requires |kinds| == 2 && Contribution(kinds[0]) == Block([], [], []) && kinds[1] == ColumnLine(Some(c))
    ensures Collect(kinds) == Block([c], [], [])
  {
    assert kinds == [kinds[0], kinds[1]];
    CollectTwo(kinds[0], kinds[1]);
  }

  /** The loop over `pk_cols.split(',')`. */
  method SplitPrimaryKeyGroup(group: string) returns (keys: seq<string>)
    ensures keys == PrimaryKeyNames(group)
  {
    var parts := Split(group, ',');
    ghost var names := PrimaryKeyNames(group);
    assert |names| == |parts|;
    keys := [];
    for k := 0 to |parts|
      invariant keys == names[..k]
    {
      var col := StripQuotes(Strip(parts[k]));
      TakeSnoc(names, k);
      keys := keys + [col];
    }
    assert names[..|parts|] == names;
  }

  /** What one line adds, computed as `_parse_columns_and_constraints` does
      in the body of its loop. */
  method ParseLine(raw: string) returns (add: Block)
    ensures add == Contribution(Classify(raw))
  {
    add := Block([], [], []);
    var line := Strip(raw);
    if line == "" {
      return;
    }
    if HasSpacedPair(line, "primary", "key") {
      var group := PrimaryKeyGroup(line);
      assert Classify(raw) == PrimaryKeyLine(if group.Some? then PrimaryKeyNames(group.value) else []);
      if group.Some? {
        var keys := SplitPrimaryKeyGroup(group.value);
        add := Block([], keys, []);
      }
    } else if HasSpacedPair(line, "foreign", "key") {
      var fkCol := ForeignKeyColumn(line);
      var refTable := ReferencedTable(line);
      var refCol := ReferencedColumn(line);
      assert Classify(raw) == ForeignKeyLine(ForeignKeyOf(line));
      if fkCol.Some? && refTable.Some? && refCol.Some? {
        add := Block([], [], [ForeignKey(fkCol.value, refTable.value, refCol.value)]);
      }
    } else if !HasKeyWord(line) {
      var colDef := ColumnDef(line);
      assert Classify(raw) == ColumnLine(ColumnOf(line));
      if colDef.Some? {
        var (colName, colType) := colDef.value;
        var nullable := !HasSpacedPair(line, "not", "null");
        var defaultMatch := Default(line);
        var defaultValue := if defaultMatch.Some? then Some(Strip(defaultMatch.value)) else None;
        add := Block([Column(colName, DdlCamel(colName, false), UpperStr(colType), nullable, defaultValue)], [], []);
      }
    }
  }

  /** One more line extends the lists by that line's contribution. */
  lemma CollectStep(lines: seq<string>, i: nat)
    requires i < |lines|
    ensures Collect(Kinds(lines[..i + 1])) == Extend(Collect(Kinds(lines[..i])), Contribution(Classify(lines[i])))
  {
    var kinds := Kinds(lines[..i + 1]);
    assert kinds[..i] == Kinds(lines[..i]);
  }

  /** `_parse_columns_and_constraints(columns_content)`: the lines of the
      block, each classified, their contributions appended in order. */
  method ParseColumnsAndConstraints(content: string) returns (b: Block)
    ensures b == Collect(Kinds(SplitParens(content)))
  {
    var lines := SplitPreservingParentheses(content);
    var columns: seq<Column> := [];
    var primaryKeys: seq<string> := [];
    var foreignKeys: seq<ForeignKey> := [];
    for i := 0 to |lines|
      invariant Block(columns, primaryKeys, foreignKeys) == Collect(Kinds(lines[..i]))
    {
      var add := ParseLine(lines[i]);
      columns := columns + add.columns;
      primaryKeys := primaryKeys + add.primaryKey;
      foreignKeys := foreignKeys + add.foreignKeys;
      CollectStep(lines, i);
    }
    assert lines[..|lines|] == lines;
    b := Block(columns, primaryKeys, foreignKeys);
  }

  // ---------------------------------------------------------------------
  // What the lists hold

  /** A foreign key is in the result exactly when some line is a FOREIGN KEY
      line whose three sub-matches all succeed and give that key. */
  lemma {:induction false} ForeignKeysFromLines(kinds: seq<LineKind>, fk: ForeignKey)
    ensures fk in Collect(kinds).foreignKeys
      <==> exists k :: 0 <= k < |kinds| && kinds[k] == ForeignKeyLine(Some(fk))
    decreases |kinds|
  {
    if |kinds| > 0 {
      var init := kinds[..|kinds| - 1];
      ForeignKeysFromLines(init, fk);
      if exists k :: 0 <= k < |init| && init[k] == ForeignKeyLine(Some(fk)) {
        var k :| 0 <= k < |init| && init[k] == ForeignKeyLine(Some(fk));
        assert kinds[k] == init[k];
      }
    }
  }

  /** A column is in the result exactly when some line is a column line
      whose identifier-and-type match succeeds and gives that column. */
  lemma {:induction false} ColumnsFromLines(kinds: seq<LineKind>, c: Column)
    ensures c in Collect(kinds).columns
      <==> exists k :: 0 <= k < |kinds| && kinds[k] == ColumnLine(Some(c))
    decreases |kinds|
  {
    if |kinds| > 0 {
      var init := kinds[..|kinds| - 1];
      ColumnsFromLines(init, c);
      if exists k :: 0 <= k < |init| && init[k] == ColumnLine(Some(c)) {
        var k :| 0 <= k < |init| && init[k] == ColumnLine(Some(c));
        assert kinds[k] == init[k];
      }
    }
  }

  /** A name is a primary-key column exactly when it is one of the names of
      some PRIMARY KEY line. */
  lemma {:induction false} PrimaryKeyFromLines(kinds: seq<LineKind>, name: string)
    ensures name in Collect(kinds).primaryKey
      <==> exists k :: 0 <= k < |kinds| && kinds[k].PrimaryKeyLine? && name in kinds[k].keys
    decreases |kinds|
  {
    if |kinds| > 0 {
      var init := kinds[..|kinds| - 1];
      PrimaryKeyFromLines(init, name);
      if exists k :: 0 <= k < |init| && init[k].PrimaryKeyLine? && name in init[k].keys {
        var k :| 0 <= k < |init| && init[k].PrimaryKeyLine? && name in init[k].keys;
        assert kinds[k] == init[k];
      }
    }
  }

  /** Each line adds at most one column or foreign key. */
  lemma {:induction false} AtMostOnePerLine(kinds: seq<LineKind>)
    ensures |Collect(kinds).columns| + |Collect(kinds).foreignKeys| <= |kinds|
    decreases |kinds|
  {
    if |kinds| > 0 {
      AtMostOnePerLine(kinds[..|kinds| - 1]);
    }
  }

  /** Classification precedence: a line mentioning KEY anywhere (a column
      named `api_key` included) or matching PRIMARY KEY or FOREIGN KEY is
      never read as a column. */
  lemma KeyLinesAreNotColumns(line: string)
    requires ContainsWord(Strip(line), "key") || HasSpacedPair(Strip(line), "primary", "key")
      || HasSpacedPair(Strip(line), "foreign", "key")
    ensures !Classify(line).ColumnLine?
  {
  }

  /** A PRIMARY KEY written inline after a column, with no parenthesis on
      its line, adds neither a key nor a column. */
  lemma InlinePrimaryKeyVanishes(line: string)
    requires HasSpacedPair(Strip(line), "primary", "key") && '(' !in Strip(line)
    ensures Contribution(Classify(line)) == Block([], [], [])
  {
    var l := Strip(line);
    NoParenNoGroup(l);
    assert Classify(line) == PrimaryKeyLine([]);
  }

  /** Without an opening parenthesis there is no column group to read. */
  lemma NoParenNoGroup(l: string)
    requires '(' !in l
    ensures PrimaryKeyGroup(l).None?
  {
    forall i: nat | i <= |l|
      ensures ParenGroupAt(l, i).None?
    {
      if i < |l| {
        assert l[i] in l;
      }
    }
    SearchFails(l, i => ParenGroupAt(l, i), 0);
  }
}
