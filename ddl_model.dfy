/** The records produced by the DDL parser
    (src/microgenesis/generators/schema/ddl_parser.py) and its identifier
    helper `_to_camel_case`. A table, column or relationship is a Python
    dict there; each becomes a datatype here, with one constructor per
    relationship kind. */
module DdlModel {
  import opened Wrappers
  import opened Strings

  /** One column line: its name, the camel-case field name, the type token
      upper-cased, whether it may be NULL, and the text after DEFAULT. */
  datatype Column = Column(
    name: string,
    fieldName: string,
    sqlType: string,
    nullable: bool,
    default: Option<string>)

  datatype ForeignKey = ForeignKey(column: string, referencedTable: string, referencedColumn: string)

  datatype JoinTable = JoinTable(name: string, joinColumn: string, inverseJoinColumn: string)

  /** The three relationship records the parser appends. */
  datatype Relationship =
    | ManyToOne(targetEntity: string, fieldName: string, joinColumn: string)
    | OneToMany(targetEntity: string, fieldName: string, mappedBy: string)
    | ManyToMany(targetEntity: string, fieldName: string, joinTable: JoinTable)

  /** A parsed table. `isJunctionTable` stands for the optional dict key,
      absent (false) until relationship inference sets it. */
  datatype Table = Table(
    name: string,
    className: string,
    columns: seq<Column>,
    primaryKey: seq<string>,
    foreignKeys: seq<ForeignKey>,
    relationships: seq<Relationship>,
    isJunctionTable: bool)

  /** `''.join(x.title() for x in ws)`: titling changes only letter case,
      so the result lowers to the lowered concatenation. */
  function TitledConcat(ws: seq<string>): (r: string)
    ensures LowerStr(r) == LowerStr(Concat(ws))
    decreases |ws|
  {
    if |ws| == 0 then ""
    else
      var rest := TitledConcat(ws[1..]);
      LowerAppend(Title(ws[0]), rest);
      LowerAppend(ws[0], Concat(ws[1..]));
      LowerTitleFrom(ws[0], false);
      Title(ws[0]) + rest
  }

  /** `_to_camel_case(s, capitalize_first)`: the `_`-separated pieces, each
      titled, or all but the first when `capitalizeFirst` is false. */
  function DdlCamel(s: string, capitalizeFirst: bool): string {
    var pieces := Split(s, '_');
    if capitalizeFirst then TitledConcat(pieces)
    else pieces[0] + TitledConcat(pieces[1..])
  }

  // ---------------------------------------------------------------------
  // What `DdlCamel` does: drop the underscores and change letter case only.

  lemma {:induction false} LowerTitleFrom(x: string, prevCased: bool)
    ensures LowerStr(TitleFrom(x, prevCased)) == LowerStr(x)
    decreases |x|
  {
    if |x| > 0 {
      LowerTitleFrom(x[1..], IsLetter(x[0]));
      var h: string := [if prevCased then Lower(x[0]) else Upper(x[0])];
      LowerAppend(h, TitleFrom(x[1..], IsLetter(x[0])));
      LowerAppend([x[0]], x[1..]);
      assert x == [x[0]] + x[1..];
    }
  }

  lemma {:induction false} ConcatSplit(s: string, c: char)
    ensures Concat(Split(s, c)) == Remove(s, c)
    decreases |s|
  {
    if |s| > 0 {
      ConcatSplit(s[1..], c);
      var rest := Split(s[1..], c);
      if s[0] == c {
        assert Split(s, c) == [""] + rest;
        assert Concat(Split(s, c)) == "" + Concat(rest);
      } else {
        var r := Split(s, c);
        assert r == [[s[0]] + rest[0]] + rest[1..];
        assert r[1..] == rest[1..];
        assert Concat(rest) == rest[0] + Concat(rest[1..]);
      }
    }
  }

  /** Lower-casing neither creates nor removes an underscore. */
  lemma LowerKeepsUnderscore(x: string)
    ensures '_' in x <==> '_' in LowerStr(x)
  {
    forall i | 0 <= i < |x| ensures x[i] == '_' <==> LowerStr(x)[i] == '_' {
      assert LowerStr(x)[i] == Lower(x[i]);
    }
  }

  lemma {:induction false} RemoveLength(s: string, c: char)
    ensures |Remove(s, c)| == |s| - CountChar(s, c)
    decreases |s|
  {
    if |s| > 0 { RemoveLength(s[1..], c); }
  }

  /** `_to_camel_case` only removes the underscores and changes the case of
      letters: lower-casing its result gives the lower-cased text without
      underscores, so no `_` is left and the length drops by their count. */
  lemma DdlCamelSpec(s: string, capitalizeFirst: bool)
    ensures LowerStr(DdlCamel(s, capitalizeFirst)) == LowerStr(Remove(s, '_'))
    ensures '_' !in DdlCamel(s, capitalizeFirst)
    ensures |DdlCamel(s, capitalizeFirst)| == |s| - CountChar(s, '_')
  {
    var pieces := Split(s, '_');
    ConcatSplit(s, '_');
    if !capitalizeFirst {
      LowerAppend(pieces[0], TitledConcat(pieces[1..]));
      LowerAppend(pieces[0], Concat(pieces[1..]));
      assert Concat(pieces) == pieces[0] + Concat(pieces[1..]);
    }
    var r := DdlCamel(s, capitalizeFirst);
    LowerKeepsUnderscore(Remove(s, '_'));
    LowerKeepsUnderscore(r);
    RemoveLength(s, '_');
  }

  /** `str.title` of a word of letters: its first letter raised and the
      rest lowered. */
  lemma {:induction false} TitleWord(w: string, r: string)
    requires |w| > 0 && |r| == |w| && forall k :: 0 <= k < |w| ==> IsLetter(w[k])
    requires r[0] == Upper(w[0]) && forall k :: 0 < k < |w| ==> r[k] == Lower(w[k])
    ensures Title(w) == r
  {
    TitleRest(w[1..], r[1..]);
    assert Title(w) == [Upper(w[0])] + TitleFrom(w[1..], true);
  }

  lemma {:induction false} TitleRest(w: string, r: string)
    requires |r| == |w| && forall k :: 0 <= k < |w| ==> IsLetter(w[k]) && r[k] == Lower(w[k])
    ensures TitleFrom(w, true) == r
    decreases |w|
  {
    if |w| > 0 {
      TitleRest(w[1..], r[1..]);
      assert TitleFrom(w, true) == [Lower(w[0])] + TitleFrom(w[1..], true);
    }
  }

  /** Two underscore-free pieces joined by `_` split back into them. */
  lemma SplitPair(a: string, b: string)
    requires '_' !in a && '_' !in b
    ensures Split(a + "_" + b, '_') == [a, b]
  {
    SplitAtSep(a, b, '_');
    SplitNoSep(b, '_');
  }

  /** The class name of `a_b` titles both pieces; the field name titles
      the second only. */
  lemma DdlCamelOfPair(a: string, b: string)
    requires '_' !in a && '_' !in b
    ensures DdlCamel(a + "_" + b, true) == Title(a) + Title(b)
    ensures DdlCamel(a + "_" + b, false) == a + Title(b)
  {
    SplitPair(a, b);
    var pieces := [a, b];
    assert pieces[1..] == [b];
    assert TitledConcat([b]) == Title(b) + TitledConcat([]);
  }

  /** A table name of the parser's own test schema becomes its class name. */
  lemma DdlCamelClassName(s: string)
    requires s == "order_items"
    ensures DdlCamel(s, true) == "OrderItems"
  {
    assert s == "order" + "_" + "items";
    DdlCamelOfPair("order", "items");
    TitleWord("order", "Order");
    TitleWord("items", "Items");
    assert "Order" + "Items" == "OrderItems";
  }

  /** A column name keeps its first piece and titles the rest. */
  lemma DdlCamelFieldName(s: string)
    requires s == "user_id"
    ensures DdlCamel(s, false) == "userId"
  {
    assert s == "user" + "_" + "id";
    DdlCamelOfPair("user", "id");
    TitleWord("id", "Id");
  }
}
