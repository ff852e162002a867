/** The import lists of the Kotlin Spring Boot generator
    (src/generators/spring_boot/kotlin/__init__.py): `_get_imports_for_kotlin_entity`
    and `_get_imports_for_kotlin_dto`. A field is given by its `type`; a
    field without one has the type `""`. */
module KotlinImports {
  import opened Wrappers
  import opened Strings
  import opened DdlScan

  // ---------------------------------------------------------------------
  // re.findall(r"<([^,>]+)(?:,\s*([^>]+))?>", t)

  /** The two groups of one match; a group that did not take part is `""`. */
  datatype Groups = Groups(first: string, second: string)

  datatype GenericMatch = GenericMatch(groups: Groups, end: nat)

  /** The generic-argument pattern at `i`. Group 1 is the run of characters
      other than `,` and `>` after the `<`. If a `>` follows it, that closes
      the match. If a `,` follows, optional whitespace and then group 2 run
      to the next `>`; when the whitespace reaches the `>` itself, one
      whitespace character is given back to group 2. No shorter group 1 can
      help, as the character after it would be neither `,` nor `>`. */
  function GenericAt(s: string, i: nat): (r: Option<GenericMatch>)
    ensures r.Some? ==> i < r.value.end <= |s|
    ensures r.Some? ==> WellFormed(r.value.groups)
  {
    if i >= |s| || s[i] != '<' then None
    else match FirstIndexOf(s, i + 1, {',', '>'})
      case None => None
      case Some(e1) =>
        if e1 == i + 1 then None
        else if s[e1] == '>' then Some(GenericMatch(Groups(s[i + 1..e1], ""), e1 + 1))
        else match FirstIndexOf(s, e1 + 1, {'>'})
          case None => None
          case Some(gt) =>
            if gt == e1 + 1 then None
            else
              var w := SkipSpaces(s, e1 + 1);
              var k := if w < gt then w else gt - 1;
              Some(GenericMatch(Groups(s[i + 1..e1], s[k..gt]), gt + 1))
  }

  /** What the two groups can hold: group 1 a non-empty run without `,` or
      `>`, group 2 a run without `>`. */
  predicate WellFormed(g: Groups) {
    |g.first| > 0 && ',' !in g.first && '>' !in g.first && '>' !in g.second
  }

  /** `re.findall` from `i`: the groups of the successive non-overlapping
      matches; there are no more of them than characters left. */
  function FindAll(s: string, i: nat): (r: seq<Groups>)
    ensures forall k :: 0 <= k < |r| ==> WellFormed(r[k])
    ensures i <= |s| ==> |r| <= |s| - i
    decreases |s| - i
  {
    if i >= |s| then []
    else match GenericAt(s, i)
      case Some(m) => [m.groups] + FindAll(s, m.end)
      case None => FindAll(s, i + 1)
  }

  /** No match starts before the first `<`. */
  lemma {:induction false} FindAllSkips(s: string, i: nat, j: nat)
    requires i <= j <= |s|
    requires forall k :: i <= k < j ==> s[k] != '<'
    ensures FindAll(s, i) == FindAll(s, j)
    decreases j - i
  {
    if i < j {
      assert GenericAt(s, i).None?;
      FindAllSkips(s, i + 1, j);
    }
  }

  // ---------------------------------------------------------------------
  // Per-field imports

  const KotlinPrimitives: set<string> := {"String", "Int", "Long", "Double", "Boolean", "Float", "Short", "Byte"}

  /** The type with one trailing nullable marker `?` removed. */
  function Unmarked(t: string): (u: string)
    ensures EndsWith(t, "?") ==> t == u + "?"
    ensures !EndsWith(t, "?") ==> u == t
  {
    if EndsWith(t, "?") then t[..|t| - 1] else t
  }

  predicate IsTimeType(u: string) {
    u in ["LocalDate", "LocalDateTime", "LocalTime"]
  }

  predicate IsSqlType(u: string) {
    u in ["Date", "Timestamp"]
  }

  predicate IsCollection(u: string) {
    StartsWith(u, "List<") || StartsWith(u, "Set<") || StartsWith(u, "Map<")
  }

  /** `field_type.split("<")[0]`. */
  function CollectionName(u: string): string {
    Split(u, '<')[0]
  }

  /** A generic argument is imported verbatim unless it is empty, a Kotlin
      primitive, or qualified by `java.` or `kotlin.`. */
  function Accepted(x: string): (r: set<string>)
    ensures r <= {x}
    ensures "" !in r && r !! KotlinPrimitives
    ensures forall y :: y in r ==> !StartsWith(y, "java.") && !StartsWith(y, "kotlin.")
  {
    if x != "" && x !in KotlinPrimitives && !StartsWith(x, "java.") && !StartsWith(x, "kotlin.") then {x} else {}
  }

  /** The generic arguments the entity helper imports, over both groups of
      every match. */
  function GenericImports(gs: seq<Groups>): set<string>
    decreases |gs|
  {
    if |gs| == 0 then {}
    else GenericImports(gs[..|gs| - 1]) + Accepted(gs[|gs| - 1].first) + Accepted(gs[|gs| - 1].second)
  }

  /** What one field adds to the DTO imports: a `java.time`, `java.sql` or
      `java.util` name. */
  function DtoFieldImports(t: string): (r: set<string>)
    ensures |r| <= 1
  {
    var u := Unmarked(t);
    if IsTimeType(u) then {"java.time." + u}
    else if IsSqlType(u) then {"java.sql." + u}
    else if IsCollection(u) then {"java.util." + CollectionName(u)}
    else {}
  }

  /** Every DTO import of a field is under `java.`. */
  lemma DtoFieldJava(t: string)
    ensures forall x :: x in DtoFieldImports(t) ==> StartsWith(x, "java.")
  {
    var u := Unmarked(t);
    JavaPackages("java.time.", "java.sql.", "java.util.");
    if IsTimeType(u) {
      JavaPrefixed("java.time.", u);
    } else if IsSqlType(u) {
      JavaPrefixed("java.sql.", u);
    } else if IsCollection(u) {
      JavaPrefixed("java.util.", CollectionName(u));
    }
  }

  /** The three packages the DTO imports come from lie under `java.`. */
  lemma JavaPackages(time: string, sql: string, util: string)
    requires time == "java.time." && sql == "java.sql." && util == "java.util."
    ensures |time| >= 5 && time[..5] == "java."
    ensures |sql| >= 5 && sql[..5] == "java."
    ensures |util| >= 5 && util[..5] == "java."
  {
  }

  /** A package under `java.` keeps that prefix whatever follows it. */
  lemma JavaPrefixed(pkg: string, x: string)
    requires |pkg| >= 5 && pkg[..5] == "java."
    ensures StartsWith(pkg + x, "java.")
  {
    assert (pkg + x)[..5] == pkg[..5];
  }

  /** What one field adds to the entity imports: what it adds to the DTO
      imports and, for a collection, its accepted generic arguments. */
  function EntityFieldImports(t: string): (r: set<string>)
    ensures DtoFieldImports(t) <= r
  {
    var u := Unmarked(t);
    if IsTimeType(u) then {"java.time." + u}
    else if IsSqlType(u) then {"java.sql." + u}
    else if IsCollection(u) then {"java.util." + CollectionName(u)} + GenericImports(FindAll(u, 0))
    else {}
  }

  /** The entity imports as a set: the persistence import and those of every
      field. */
  function EntityImports(types: seq<string>): (r: set<string>)
    ensures "jakarta.persistence.*" in r
    decreases |types|
  {
    if |types| == 0 then {"jakarta.persistence.*"}
    else EntityImports(types[..|types| - 1]) + EntityFieldImports(types[|types| - 1])
  }

  /** The DTO imports as a set. */
  function DtoImports(types: seq<string>): (r: set<string>)
    ensures forall x :: x in r ==> StartsWith(x, "java.")
    decreases |types|
  {
    if |types| == 0 then {}
    else
      DtoFieldJava(types[|types| - 1]);
      DtoImports(types[..|types| - 1]) + DtoFieldImports(types[|types| - 1])
  }

  // ---------------------------------------------------------------------
  // The two helpers

  /** The generic arguments one collection type adds, as the entity
      helper's inner loops add them. */
  method AddGenericImports(imports: set<string>, innerTypes: seq<Groups>) returns (r: set<string>)
    ensures r == imports + GenericImports(innerTypes)
  {
    r := imports;
    for g := 0 to |innerTypes|
      invariant r == imports + GenericImports(innerTypes[..g])
    {
      assert innerTypes[..g + 1][..g] == innerTypes[..g];
      var group := innerTypes[g];
      // both members of the group, the unmatched one being ""
      if group.first != "" && group.first !in KotlinPrimitives
        && !StartsWith(group.first, "java.") && !StartsWith(group.first, "kotlin.") {
        r := r + {group.first};
      }
      if group.second != "" && group.second !in KotlinPrimitives
        && !StartsWith(group.second, "java.") && !StartsWith(group.second, "kotlin.") {
        r := r + {group.second};
      }
    }
    assert innerTypes[..|innerTypes|] == innerTypes;
  }

  /** The imports one field adds, as the entity helper's loop body adds them. */
  method AddEntityFieldImports(imports: set<string>, fieldType: string) returns (r: set<string>)
    ensures r == imports + EntityFieldImports(fieldType)
  {
    var t := fieldType;
    if EndsWith(t, "?") {
      t := t[..|t| - 1];
    }
    assert t == Unmarked(fieldType);
    if t in ["LocalDate", "LocalDateTime", "LocalTime"] {
      r := imports + {"java.time." + t};
    } else if t in ["Date", "Timestamp"] {
      r := imports + {"java.sql." + t};
    } else if StartsWith(t, "List<") || StartsWith(t, "Set<") || StartsWith(t, "Map<") {
      var collectionType := Split(t, '<')[0];
      r := AddGenericImports(imports + {"java.util." + collectionType}, FindAll(t, 0));
    } else {
      r := imports;
    }
  }

  /** The imports one field adds, as the DTO helper's loop body adds them. */
  method AddDtoFieldImports(imports: set<string>, fieldType: string) returns (r: set<string>)
    ensures r == imports + DtoFieldImports(fieldType)
  {
    var t := fieldType;
    if EndsWith(t, "?") {
      t := t[..|t| - 1];
    }
    assert t == Unmarked(fieldType);
    r := imports;
    if t in ["LocalDate", "LocalDateTime", "LocalTime"] {
      r := r + {"java.time." + t};
    } else if t in ["Date", "Timestamp"] {
      r := r + {"java.sql." + t};
    } else if StartsWith(t, "List<") || StartsWith(t, "Set<") || StartsWith(t, "Map<") {
      var collectionType := Split(t, '<')[0];
      r := r + {"java.util." + collectionType};
    }
  }

  /** `_get_imports_for_kotlin_entity(fields)`. */
  method GetImportsForKotlinEntity(types: seq<string>) returns (r: seq<string>)
    ensures StrictlySorted(r) && Elements(r) == EntityImports(types)
    ensures "jakarta.persistence.*" in r
  {
    var imports: set<string> := {"jakarta.persistence.*"};
    for i := 0 to |types|
      invariant imports == EntityImports(types[..i])
    {
      assert types[..i + 1][..i] == types[..i];
      imports := AddEntityFieldImports(imports, types[i]);
    }
    assert types[..|types|] == types;
    r := SortedList(imports);
  }

  /** `_get_imports_for_kotlin_dto(fields)`. */
  method GetImportsForKotlinDto(types: seq<string>) returns (r: seq<string>)
    ensures StrictlySorted(r) && Elements(r) == DtoImports(types)
  {
    var imports: set<string> := {};
    for i := 0 to |types|
      invariant imports == DtoImports(types[..i])
    {
      assert types[..i + 1][..i] == types[..i];
      imports := AddDtoFieldImports(imports, types[i]);
    }
    assert types[..|types|] == types;
    r := SortedList(imports);
  }

  // ---------------------------------------------------------------------
  // Properties

  /** The DTO imports are entity imports without the persistence import. */
  lemma {:induction false} DtoSubset(types: seq<string>)
    ensures DtoImports(types) <= EntityImports(types)
    ensures "jakarta.persistence.*" !in DtoImports(types)
    decreases |types|
  {
    if |types| > 0 {
      DtoSubset(types[..|types| - 1]);
    }
    PersistenceIsNotJava("jakarta.persistence.*");
  }

  lemma PersistenceIsNotJava(p: string)
    requires p == "jakarta.persistence.*"
    ensures !StartsWith(p, "java.")
  {
    assert p[2] == 'k';
  }

  /** One nullable marker does not change what a field imports. */
  lemma NullableMarker(t: string)
    requires !EndsWith(t, "?")
    ensures EntityFieldImports(t + "?") == EntityFieldImports(t)
    ensures DtoFieldImports(t + "?") == DtoFieldImports(t)
  {
    var m := t + "?";
    assert m[|m| - 1..] == "?" && m[..|m| - 1] == t;
  }

  /** None of the five type names carries a nullable marker. */
  lemma NamesUnmarked(t: string)
    requires IsTimeType(t) || IsSqlType(t)
    ensures !EndsWith(t, "?")
  {
    assert t[|t| - 1] != '?';
  }

  /** The time types import exactly their `java.time` names. */
  lemma TimeTypes(t: string)
    requires IsTimeType(t)
    ensures EntityFieldImports(t) == DtoFieldImports(t) == {"java.time." + t}
  {
    NamesUnmarked(t);
  }

  /** The SQL types import exactly their `java.sql` names. */
  lemma SqlTypes(t: string)
    requires IsSqlType(t)
    ensures EntityFieldImports(t) == DtoFieldImports(t) == {"java.sql." + t}
  {
    NamesUnmarked(t);
    assert !IsTimeType(t) by {
      assert t[0] == 'D' || t[0] == 'T';
    }
  }

  /** A type closed by `>` is none of the five names and carries no marker. */
  lemma ClosedType(t: string)
    requires |t| > 0 && t[|t| - 1] == '>'
    ensures !EndsWith(t, "?") && !IsTimeType(t) && !IsSqlType(t)
  {
  }

  /** The collection name is the text before the first `<`. */
  lemma CollectionHead(c: string, rest: string)
    requires c in ["List", "Set", "Map"]
    ensures IsCollection(c + "<" + rest) && CollectionName(c + "<" + rest) == c
  {
    var t := c + "<" + rest;
    assert t[..|c| + 1] == c + "<";
    assert t == c + ['<'] + rest;
    assert '<' !in c;
    SplitAtSep(c, rest, '<');
  }

  /** One argument: the single match has `x` as group 1. */
  lemma FindAllOne(c: string, x: string)
    requires '<' !in c
    requires x != "" && ',' !in x && '>' !in x
    ensures FindAll(c + "<" + x + ">", 0) == [Groups(x, "")]
  {
    var t := c + "<" + x + ">";
    var o := |c|;
    FindAllSkips(t, 0, o);
    assert FirstIndexOf(t, o + 1, {',', '>'}) == Some(|t| - 1) by {
      assert t[|t| - 1] == '>';
      assert forall k :: o + 1 <= k < |t| - 1 ==> t[k] == x[k - o - 1];
    }
    assert t[o + 1..|t| - 1] == x;
    assert FindAll(t, |t|) == [];
  }

  /** Two arguments: group 2 starts after the comma and the space. */
  lemma FindAllTwo(c: string, k: string, v: string)
    requires '<' !in c
    requires k != "" && ',' !in k && '>' !in k
    requires v != "" && '>' !in v && !IsSpace(v[0])
    ensures FindAll(c + "<" + k + ", " + v + ">", 0) == [Groups(k, v)]
  {
    var t := c + "<" + k + ", " + v + ">";
    FindAllSkips(t, 0, |c|);
    MatchOfTwo(c, k, v);
    assert FindAll(t, |t|) == [];
  }

  lemma MatchOfTwo(c: string, k: string, v: string)
    requires k != "" && ',' !in k && '>' !in k
    requires v != "" && '>' !in v && !IsSpace(v[0])
    ensures GenericAt(c + "<" + k + ", " + v + ">", |c|) ==
      Some(GenericMatch(Groups(k, v), |c| + |k| + |v| + 4))
  {
    TwoArgLayout(c, k, v);
    MatchAtLayout(c + "<" + k + ", " + v + ">", |c|, k, v);
  }

  /** `t` holds `<k, v>` from `o` to its end. */
  predicate TwoArgShape(t: string, o: nat, k: string, v: string) {
    var e1 := o + 1 + |k|;
    |t| == e1 + |v| + 3 && t[o] == '<' && t[o + 1..e1] == k
    && t[e1] == ',' && t[e1 + 1] == ' ' && t[e1 + 2..|t| - 1] == v && t[|t| - 1] == '>'
  }

  /** Where the pieces of `c<k, v>` sit. */
  lemma TwoArgLayout(c: string, k: string, v: string)
    ensures TwoArgShape(c + "<" + k + ", " + v + ">", |c|, k, v)
  {
    var t := c + "<" + k + ", " + v + ">";
    var e1 := |c| + 1 + |k|;
    assert t == (c + "<") + k + (", " + v + ">");
    assert t[e1 + 2..|t| - 1] == v;
  }

  /** A text laid out as `<k, v>` from `o` matches with both groups. */
  lemma MatchAtLayout(t: string, o: nat, k: string, v: string)
    requires k != "" && ',' !in k && '>' !in k
    requires v != "" && '>' !in v && !IsSpace(v[0])
    requires TwoArgShape(t, o, k, v)
    ensures GenericAt(t, o) == Some(GenericMatch(Groups(k, v), o + |k| + |v| + 4))
  {
    var e1 := o + 1 + |k|;
    forall j | o + 1 <= j < e1
      ensures t[j] !in {',', '>'}
    {
      assert t[j] == t[o + 1..e1][j - o - 1];
    }
    FirstIndexAt(t, o + 1, {',', '>'}, e1);
    forall j | e1 + 1 <= j < |t| - 1
      ensures t[j] != '>'
    {
      if j > e1 + 1 {
        assert t[j] == t[e1 + 2..|t| - 1][j - e1 - 2];
      }
    }
    FirstIndexAt(t, e1 + 1, {'>'}, |t| - 1);
    assert t[e1 + 2] == v[0] by {
      assert t[e1 + 2] == t[e1 + 2..|t| - 1][0];
    }
    SpaceThenWord(t, e1 + 1);
  }

  /** One space before a non-space is skipped exactly. */
  lemma SpaceThenWord(t: string, i: nat)
    requires i + 1 < |t| && t[i] == ' ' && !IsSpace(t[i + 1])
    ensures SkipSpaces(t, i) == i + 1
  {
  }

  /** `C<x>` for a collection `C` imports `java.util.C`, and the entity
      helper also imports `x` when it is accepted. */
  lemma CollectionOfOne(c: string, x: string)
    requires c in ["List", "Set", "Map"]
    requires x != "" && ',' !in x && '>' !in x
    ensures EntityFieldImports(c + "<" + x + ">") == {"java.util." + c} + Accepted(x)
    ensures DtoFieldImports(c + "<" + x + ">") == {"java.util." + c}
  {
    var t := c + "<" + x + ">";
    ClosedType(t);
    assert t == c + "<" + (x + ">");
    CollectionHead(c, x + ">");
    FindAllOne(c, x);
    assert GenericImports([Groups(x, "")]) == GenericImports([]) + Accepted(x) + Accepted("");
  }

  /** `C<k, v>` imports both arguments when they are accepted. */
  lemma CollectionOfTwo(c: string, k: string, v: string)
    requires c in ["List", "Set", "Map"]
    requires k != "" && ',' !in k && '>' !in k
    requires v != "" && '>' !in v && !IsSpace(v[0])
    ensures EntityFieldImports(c + "<" + k + ", " + v + ">") == {"java.util." + c} + Accepted(k) + Accepted(v)
  {
    var t := c + "<" + k + ", " + v + ">";
    ClosedType(t);
    assert t == c + "<" + (k + ", " + v + ">");
    CollectionHead(c, k + ", " + v + ">");
    FindAllTwo(c, k, v);
    assert GenericImports([Groups(k, v)]) == GenericImports([]) + Accepted(k) + Accepted(v);
  }
}
