/** The import list of the GraphQL Java generator's entity models
    (src/generators/graphql/java/__init__.py, `_get_imports_for_entity`).
    An entity is given by its fields and its `package`, which is `""` when
    the entity has none; a field without a `type` has the type `""` and one
    without `annotations` the empty list. */
module GraphqlImports {
  import opened Wrappers
  import opened Strings
  import opened DdlScan

  datatype GqlField = GqlField(fieldType: string, annotations: seq<string>)

  /** The collection element types that are not imported. */
  const BoxedTypes: set<string> := {"String", "Integer", "Long", "Double", "Boolean"}

  // ---------------------------------------------------------------------
  // re.search(r"<([^>]+)>", t)

  /** `s` holds `x` at `i + 1`, right after a `<` and right before a `>`,
      and `x` is a non-empty run without `>`. */
  predicate EnclosedAt(s: string, i: nat, x: string) {
    |x| > 0 && '>' !in x && i + |x| + 1 < |s|
    && s[i] == '<' && s[i + 1..i + 1 + |x|] == x && s[i + 1 + |x|] == '>'
  }

  /** The pattern at `i`: a `<`, then a non-empty run of characters other
      than `>`, then a `>`; the run is the group. */
  function InnerAt(s: string, i: nat): (r: Option<string>)
    ensures r.Some? ==> EnclosedAt(s, i, r.value)
  {
    if i >= |s| || s[i] != '<' then None
    else match FirstIndexOf(s, i + 1, {'>'})
      case None => None
      case Some(e) => if e == i + 1 then None else Some(s[i + 1..e])
  }

  /** The group of the first match in `s`, if any: a non-empty run without
      `>` that `s` holds between a `<` and a `>`. */
  function Inner(s: string): (r: Option<string>)
    ensures r.Some? ==> exists i: nat :: EnclosedAt(s, i, r.value)
  {
    SearchFinds(s, (i: nat) => InnerAt(s, i), 0);
    Search(s, (i: nat) => InnerAt(s, i), 0)
  }

  // ---------------------------------------------------------------------
  // Per-field imports

  predicate IsTimeType(t: string) {
    t in ["LocalDate", "LocalDateTime"]
  }

  predicate IsSqlType(t: string) {
    t in ["Date", "Timestamp"]
  }

  predicate IsCollection(t: string) {
    StartsWith(t, "List<") || StartsWith(t, "Set<")
  }

  /** What a field's type adds: a `java.time` or `java.sql` name, or for a
      collection `java.util` and the text before the first `<`, and the
      element type in `package` unless it is a boxed type. */
  function TypeImports(t: string, package: string): (r: set<string>)
    ensures |r| <= 2
    ensures !IsCollection(t) ==> |r| <= 1
  {
    if IsTimeType(t) then {"java.time." + t}
    else if IsSqlType(t) then {"java.sql." + t}
    else if IsCollection(t) then
      {"java.util." + Split(t, '<')[0]}
        + match Inner(t)
          case Some(x) => if x !in BoxedTypes then {package + "." + x} else {}
          case None => {}
    else {}
  }

  /** What a field's annotations add. */
  function AnnotationImports(annotations: seq<string>): (r: set<string>)
    ensures r != {} <==> "@Id" in annotations
  {
    if "@Id" in annotations then {"jakarta.persistence.Id"} else {}
  }

  function FieldImports(f: GqlField, package: string): set<string> {
    TypeImports(f.fieldType, package) + AnnotationImports(f.annotations)
  }

  /** The imports of an entity as a set: those of every field. */
  function EntityImports(fields: seq<GqlField>, package: string): (r: set<string>)
    ensures |fields| == 0 ==> r == {}
    decreases |fields|
  {
    if |fields| == 0 then {}
    else EntityImports(fields[..|fields| - 1], package) + FieldImports(fields[|fields| - 1], package)
  }

  // ---------------------------------------------------------------------
  // The helper

  /** The imports one field adds, as the loop body adds them. */
  method AddFieldImports(imports: set<string>, field: GqlField, package: string) returns (r: set<string>)
    ensures r == imports + FieldImports(field, package)
  {
    var t := field.fieldType;
    r := imports;
    if t in ["LocalDate", "LocalDateTime"] {
      r := r + {"java.time." + t};
    } else if t in ["Date", "Timestamp"] {
      r := r + {"java.sql." + t};
    } else if StartsWith(t, "List<") || StartsWith(t, "Set<") {
      r := r + {"java.util." + Split(t, '<')[0]};
      var innerType := Inner(t);
      if innerType.Some? && innerType.value !in BoxedTypes {
        r := r + {package + "." + innerType.value};
      }
    }
    assert r == imports + TypeImports(t, package);
    r := AddAnnotationImports(r, field.annotations);
  }

  /** The inner loop over a field's annotations. */
  method AddAnnotationImports(imports: set<string>, annotations: seq<string>) returns (r: set<string>)
    ensures r == imports + AnnotationImports(annotations)
  {
    r := imports;
    for k := 0 to |annotations|
      invariant r == imports + AnnotationImports(annotations[..k])
    {
      assert annotations[..k + 1] == annotations[..k] + [annotations[k]];
      if annotations[k] == "@Id" {
        r := r + {"jakarta.persistence.Id"};
      }
    }
    assert annotations[..|annotations|] == annotations;
  }

  /** `_get_imports_for_entity(entity)`. */
  method GetImportsForEntity(fields: seq<GqlField>, package: string) returns (r: seq<string>)
    ensures StrictlySorted(r) && Elements(r) == EntityImports(fields, package)
  {
    var imports: set<string> := {};
    for i := 0 to |fields|
      invariant imports == EntityImports(fields[..i], package)
    {
      assert fields[..i + 1][..i] == fields[..i];
      imports := AddFieldImports(imports, fields[i], package);
    }
    assert fields[..|fields|] == fields;
    r := SortedList(imports);
  }

  // ---------------------------------------------------------------------
  // Properties

  /** An `@Id` annotation on any field imports `jakarta.persistence.Id`,
      whatever the field's type. */
  lemma {:induction false} IdAnnotation(fields: seq<GqlField>, package: string, i: nat)
    requires i < |fields| && "@Id" in fields[i].annotations
    ensures "jakarta.persistence.Id" in EntityImports(fields, package)
    decreases |fields|
  {
    if i < |fields| - 1 {
      IdAnnotation(fields[..|fields| - 1], package, i);
    }
  }

  /** Every import comes from some field. */
  lemma {:induction false} ImportsFromFields(fields: seq<GqlField>, package: string, x: string)
    requires x in EntityImports(fields, package)
    ensures exists i :: 0 <= i < |fields| && x in FieldImports(fields[i], package)
    decreases |fields|
  {
    var n := |fields| - 1;
    if x !in FieldImports(fields[n], package) {
      ImportsFromFields(fields[..n], package, x);
      var i :| 0 <= i < n && x in FieldImports(fields[..n][i], package);
      assert fields[..n][i] == fields[i];
    }
  }

  /** The time types import exactly their `java.time` names. */
  lemma TimeTypes(t: string, package: string)
    requires IsTimeType(t)
    ensures TypeImports(t, package) == {"java.time." + t}
  {
  }

  /** The SQL types import exactly their `java.sql` names. */
  lemma SqlTypes(t: string, package: string)
    requires IsSqlType(t)
    ensures TypeImports(t, package) == {"java.sql." + t}
  {
    assert t[0] == 'D' || t[0] == 'T';
  }

  /** `LocalTime` imports nothing. */
  lemma LocalTimeIgnored(t: string, package: string)
    requires t == "LocalTime"
    ensures TypeImports(t, package) == {}
  {
    assert t[5] == 'T' && t[1] == 'o' && t[0] == 'L';
  }

  /** A nullable marker is not stripped: `LocalDate?` imports nothing. */
  lemma MarkedTimeIgnored(t: string, package: string)
    requires IsTimeType(t)
    ensures TypeImports(t + "?", package) == {}
  {
    var m := t + "?";
    assert |m| == 10 || |m| == 14;
    assert !IsTimeType(m) && !IsSqlType(m);
    assert m[1] == t[1] == 'o';
    assert !IsCollection(m);
    OtherTypes(m, package);
  }

  /** A type that is none of the recognised forms imports nothing. */
  lemma OtherTypes(t: string, package: string)
    requires !IsTimeType(t) && !IsSqlType(t) && !IsCollection(t)
    ensures TypeImports(t, package) == {}
  {
  }

  /** `C<x>` imports `java.util.C` and, unless `x` is boxed, `package.x`;
      a missing package gives a leading `.`. */
  lemma CollectionOf(c: string, x: string, package: string)
    requires c in ["List", "Set"]
    requires x != "" && '>' !in x
    ensures TypeImports(c + "<" + x + ">", package) ==
      {"java.util." + c} + if x in BoxedTypes then {} else {package + "." + x}
  {
    var t := c + "<" + x + ">";
    ClosedType(t);
    assert t[..|c| + 1] == c + "<";
    assert t == c + ['<'] + (x + ">");
    SplitAtSep(c, x + ">", '<');
    InnerOf(c, x);
  }

  lemma ClosedType(t: string)
    requires |t| > 0 && t[|t| - 1] == '>'
    ensures !IsTimeType(t) && !IsSqlType(t)
  {
  }

  /** The search finds `x` in `c<x>`. */
  lemma InnerOf(c: string, x: string)
    requires '<' !in c
    requires x != "" && '>' !in x
    ensures Inner(c + "<" + x + ">") == Some(x)
  {
    var t := c + "<" + x + ">";
    var o := |c|;
    var at := (i: nat) => InnerAt(t, i);
    assert forall j :: o + 1 <= j < |t| - 1 ==> t[j] == x[j - o - 1];
    FirstIndexAt(t, o + 1, {'>'}, |t| - 1);
    assert t[o + 1..|t| - 1] == x;
    SearchSkips(t, at, 0, o);
  }

  /** The search passes over positions that hold no `<`. */
  lemma {:induction false} SearchSkips(t: string, at: nat -> Option<string>, i: nat, j: nat)
    requires forall k: nat :: at(k) == InnerAt(t, k)
    requires i <= j <= |t|
    requires forall k :: i <= k < j ==> t[k] != '<'
    ensures Search(t, at, i) == Search(t, at, j)
    decreases j - i
  {
    if i < j {
      assert at(i) == None;
      SearchSkips(t, at, i + 1, j);
    }
  }

  /** The entity of the generator's tests: an `@Id` string, a
      `LocalDateTime`, a `List<Item>` and an enum-typed field, without a
      package. Its imports are exactly these four. */
  lemma SampleEntity(id: string, created: string, items: string, status: string)
    requires id == "String" && created == "LocalDateTime" && items == "List<Item>" && status == "Status"
    ensures EntityImports([GqlField(id, ["@Id"]), GqlField(created, []), GqlField(items, []), GqlField(status, [])], "")
      == {"jakarta.persistence.Id", "java.time.LocalDateTime", "java.util.List", ".Item"}
  {
    var f0, f1, f2, f3 := GqlField(id, ["@Id"]), GqlField(created, []), GqlField(items, []), GqlField(status, []);
    SamplePlainField(id, ["@Id"]);
    IdImport();
    SampleTimeField(created);
    SampleListField(items);
    SamplePlainField(status, []);
    FourFields(f0, f1, f2, f3, "");
    SampleUnion(FieldImports(f0, ""), FieldImports(f1, ""), FieldImports(f2, ""), FieldImports(f3, ""));
  }

  /** Evaluation step: the imports of `@Id` alone and of no annotation. */
  lemma IdImport()
    ensures AnnotationImports(["@Id"]) == {"jakarta.persistence.Id"} && AnnotationImports([]) == {}
  {
  }

  /** Evaluation step: the union of the four fields' imports, kept apart
      so the set literal is computed once. */
  lemma SampleUnion(a: set<string>, b: set<string>, c: set<string>, d: set<string>)
    requires a == {"jakarta.persistence.Id"} && b == {"java.time.LocalDateTime"}
    requires c == {"java.util.List", ".Item"} && d == {}
    ensures a + b + c + d == {"jakarta.persistence.Id", "java.time.LocalDateTime", "java.util.List", ".Item"}
  {
  }

  lemma FourFields(f0: GqlField, f1: GqlField, f2: GqlField, f3: GqlField, package: string)
    ensures EntityImports([f0, f1, f2, f3], package) ==
      FieldImports(f0, package) + FieldImports(f1, package) + FieldImports(f2, package) + FieldImports(f3, package)
  {
    assert [f0, f1, f2, f3][..3] == [f0, f1, f2] && [f0, f1, f2][..2] == [f0, f1] && [f0, f1][..1] == [f0];
    assert EntityImports([f0, f1], package) == FieldImports(f0, package) + FieldImports(f1, package);
  }

  lemma SamplePlainField(t: string, annotations: seq<string>)
    requires t in ["String", "Status"]
    ensures FieldImports(GqlField(t, annotations), "") == AnnotationImports(annotations)
  {
    assert t[1] == 't';
    OtherTypes(t, "");
  }

  lemma SampleTimeField(t: string)
    requires t == "LocalDateTime"
    ensures FieldImports(GqlField(t, []), "") == {"java.time.LocalDateTime"}
  {
    TimeTypes(t, "");
    LiteralConcat("java.time.", t, "java.time.LocalDateTime");
  }

  lemma SampleListField(t: string)
    requires t == "List<Item>"
    ensures FieldImports(GqlField(t, []), "") == {"java.util.List", ".Item"}
  {
    ListOfItem(t);
    CollectionOf("List", "Item", "");
    ItemUnboxed();
    LiteralConcat("java.util.", "List", "java.util.List");
    LiteralConcat("" + ".", "Item", ".Item");
  }

  /** Evaluation step: `List<Item>` in the shape `CollectionOf` expects. */
  lemma ListOfItem(t: string)
    requires t == "List<Item>"
    ensures t == "List" + "<" + "Item" + ">"
  {
  }

  /** Evaluation step: `Item` is no boxed Java type. */
  lemma ItemUnboxed()
    ensures "Item" !in BoxedTypes
  {
    assert "Item"[0] == 'I' && "Long"[0] == 'L';
  }

  /** Evaluation step: a literal equals a concatenation that agrees with it
      character by character. */
  lemma LiteralConcat(a: string, b: string, ab: string)
    requires |ab| == |a| + |b|
    requires forall i :: 0 <= i < |a| ==> ab[i] == a[i]
    requires forall i :: 0 <= i < |b| ==> ab[|a| + i] == b[i]
    ensures a + b == ab
  {
  }
}
