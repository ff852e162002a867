/** `SchemaRelationshipMapper` (src/generators/schema/relationship_mapper.py):
    relationship fields added to entity definitions from an override
    mapping, a template mapping over all entity pairs, and relationships
    guessed from field types and names.

    The entity list is an array of entity values; appending to an entity's
    `fields` in place is an update of its array element. */
module RelationshipMapper {
  import opened Wrappers
  import opened Strings

  datatype Field = Field(name: string, fieldType: string, annotations: seq<string>)

  /** An entity definition; a missing `fields` entry is the empty list. */
  datatype Entity = Entity(name: string, fields: seq<Field>)

  /** One entry of the override mapping; `None` is a key the entry lacks. */
  datatype Override = Override(target: Option<string>, kind: Option<string>, fieldName: Option<string>)

  /** The fields one source entity gains, and whether its processing
      stopped at an entry without a target (`target_entity.lower()` on
      `None` raises `AttributeError`). */
  datatype Added = Added(fields: seq<Field>, failed: bool)

  /** The result of `enrich_entities`, or the error it raises. */
  datatype Enrichment = Enriched(entities: seq<Entity>) | AttributeError(source: string)

  /** The join-column annotation as written: a plain string, so the text
      `{field_name}` is emitted literally. */
  const JoinColumnAsWritten: string := "@JoinColumn(name = \"{field_name}_id\")"

  const DefaultKind: string := "one-to-many"

  /** The field an entry of a recognised type adds to `source`. */
  function FieldFor(source: string, target: string, kind: string, fieldName: string): (f: Option<Field>)
    ensures f.Some? <==> kind in {"one-to-one", "many-to-one", "one-to-many", "many-to-many"}
    ensures f.Some? && kind in {"one-to-one", "many-to-one"} ==>
      f.value.name == fieldName && f.value.fieldType == target
      && |f.value.annotations| == 2 && f.value.annotations[1] == JoinColumnAsWritten
    ensures f.Some? && kind in {"one-to-many", "many-to-many"} ==>
      f.value.name == fieldName + "List" && f.value.fieldType == "List<" + target + ">"
  {
    var src := LowerStr(source);
    var tgt := LowerStr(target);
    if kind == "one-to-one" then
      Some(Field(fieldName, target, ["@OneToOne", JoinColumnAsWritten]))
    else if kind == "many-to-one" then
      Some(Field(fieldName, target, ["@ManyToOne", JoinColumnAsWritten]))
    else if kind == "one-to-many" then
      Some(Field(fieldName + "List", "List<" + target + ">", ["@OneToMany(mappedBy = \"" + src + "\")"]))
    else if kind == "many-to-many" then
      Some(Field(fieldName + "List", "List<" + target + ">",
        ["@ManyToMany",
         "@JoinTable(name = \"" + src + "_" + tgt + "\", "
         + "joinColumns = @JoinColumn(name = \"" + src + "_id\"), "
         + "inverseJoinColumns = @JoinColumn(name = \"" + tgt + "_id\"))"]))
    else None
  }

  /** What the first `|rels|` entries of `source`'s overrides add. */
  function AddedBy(source: string, rels: seq<Override>, names: set<string>): Added
    decreases |rels|
  {
    if |rels| == 0 then Added([], false)
    else
      var prev := AddedBy(source, rels[..|rels| - 1], names);
      var o := rels[|rels| - 1];
      if prev.failed then prev
      else if o.target.None? then Added(prev.fields, true)
      else
        var target := o.target.value;
        var kind := if o.kind.Some? then o.kind.value else DefaultKind;
        var fieldName := if o.fieldName.Some? then o.fieldName.value else LowerStr(target);
        if target !in names then prev
        else match FieldFor(source, target, kind, fieldName)
          case Some(f) => Added(prev.fields + [f], false)
          case None => prev
  }

  /** The entries that add a field: an existing target and a recognised type. */
  predicate Effective(o: Override, names: set<string>) {
    o.target.Some? && o.target.value in names
    && (if o.kind.Some? then o.kind.value else DefaultKind) in {"one-to-one", "many-to-one", "one-to-many", "many-to-many"}
  }

  function CountEffective(rels: seq<Override>, names: set<string>): nat
    decreases |rels|
  {
    if |rels| == 0 then 0
    else CountEffective(rels[..|rels| - 1], names) + (if Effective(rels[|rels| - 1], names) then 1 else 0)
  }

  /** Without a missing target, exactly one field is added per entry with
      an existing target and a recognised type; dangling targets and
      unknown types add nothing. */
  lemma {:induction false} OneFieldPerEntry(source: string, rels: seq<Override>, names: set<string>)
    requires forall i :: 0 <= i < |rels| ==> rels[i].target.Some?
    ensures !AddedBy(source, rels, names).failed
    ensures |AddedBy(source, rels, names).fields| == CountEffective(rels, names)
    decreases |rels|
  {
    if |rels| > 0 {
      OneFieldPerEntry(source, rels[..|rels| - 1], names);
    }
  }

  /** A single entry naming only an existing target gets the defaults: a
      one-to-many field named after the lower-cased target. */
  lemma DefaultEntry(source: string, target: string, names: set<string>)
    requires target in names
    ensures AddedBy(source, [Override(Some(target), None, None)], names).fields ==
      [Field(LowerStr(target) + "List", "List<" + target + ">", ["@OneToMany(mappedBy = \"" + LowerStr(source) + "\")"])]
  {
    assert [Override(Some(target), None, None)][..0] == [];
  }

  /** Once an entry without a target is met, nothing further is added. */
  lemma {:induction false} FailureIsFinal(source: string, rels: seq<Override>, more: seq<Override>, names: set<string>)
    requires AddedBy(source, rels, names).failed
    ensures AddedBy(source, rels + more, names) == AddedBy(source, rels, names)
    decreases |more|
  {
    if |more| > 0 {
      var init := more[..|more| - 1];
      FailureIsFinal(source, rels, init, names);
      assert (rels + more)[..|rels + more| - 1] == rels + init;
      assert AddedBy(source, rels + init, names).failed;
    } else {
      assert rels + more == rels;
    }
  }

  /** One more entry after a prefix that has not failed. */
  lemma AddedStep(source: string, rels: seq<Override>, r: nat, names: set<string>)
    requires r < |rels| && !AddedBy(source, rels[..r], names).failed
    ensures var prev := AddedBy(source, rels[..r], names);
      var o := rels[r];
      AddedBy(source, rels[..r + 1], names) ==
        if o.target.None? then Added(prev.fields, true)
        else if o.target.value !in names then prev
        else
          var kind := if o.kind.Some? then o.kind.value else DefaultKind;
          var fieldName := if o.fieldName.Some? then o.fieldName.value else LowerStr(o.target.value);
          match FieldFor(source, o.target.value, kind, fieldName)
          case Some(f) => Added(prev.fields + [f], false)
          case None => prev
  {
    assert rels[..r + 1][..r] == rels[..r];
  }

  /** The entity with the fields its overrides add. */
  function Extend(e: Entity, rels: seq<Override>, names: set<string>): Entity {
    e.(fields := e.fields + AddedBy(e.name, rels, names).fields)
  }

  // ---------------------------------------------------------------------
  // entity_map: one entry per name, first-occurrence order, last value

  /** The index of the last entity with each name. */
  function LastIndex(es: seq<Entity>): (r: map<string, nat>)
    ensures forall i :: 0 <= i < |es| ==> es[i].name in r && i <= r[es[i].name]
    ensures forall n :: n in r ==> r[n] < |es| && es[r[n]].name == n
    decreases |es|
  {
    if |es| == 0 then map[]
    else
      var m := |es| - 1;
      var pre := LastIndex(es[..m]);
      assert forall i :: 0 <= i < m ==> es[..m][i] == es[i];
      pre[es[m].name := m]
  }

  predicate Distinct(o: seq<string>) {
    forall p, q :: 0 <= p < q < |o| ==> o[p] != o[q]
  }

  /** The distinct names in order of first occurrence. */
  function FirstOrder(es: seq<Entity>): (r: seq<string>)
    ensures Distinct(r)
    ensures forall n :: n in r <==> n in LastIndex(es)
    decreases |es|
  {
    if |es| == 0 then []
    else
      var o := FirstOrder(es[..|es| - 1]);
      if es[|es| - 1].name in o then o else o + [es[|es| - 1].name]
  }

  /** `entity_map = {e["name"]: e for e in entities}` as an index map and
      its key order. */
  method BuildEntityMap(a: array<Entity>) returns (index: map<string, nat>, order: seq<string>)
    ensures index == LastIndex(a[..]) && order == FirstOrder(a[..])
  {
    index := map[];
    order := [];
    for i := 0 to a.Length
      invariant index == LastIndex(a[..i]) && order == FirstOrder(a[..i])
    {
      assert a[..i + 1][..i] == a[..i];
      if a[i].name !in index {
        order := order + [a[i].name];
      }
      index := index[a[i].name := i];
    }
    assert a[..a.Length] == a[..];
  }

  /** `index` sends every key of `order` to an entity with that name. */
  predicate Keyed(es: seq<Entity>, index: map<string, nat>, order: seq<string>) {
    (forall q :: 0 <= q < |order| ==> order[q] in index)
    && (forall n :: n in index ==> index[n] < |es| && es[index[n]].name == n)
  }

  lemma EntityMapKeyed(es: seq<Entity>)
    ensures Keyed(es, LastIndex(es), FirstOrder(es)) && Distinct(FirstOrder(es))
  {
  }

  /** The entities after the sources at key positions below `p` have been
      enriched, in the order `enrich_entities` visits them. */
  function EnrichedUpTo(es: seq<Entity>, index: map<string, nat>, order: seq<string>,
                        rels: map<string, seq<Override>>, names: set<string>, p: nat): (r: seq<Entity>)
    requires Keyed(es, index, order) && p <= |order|
    ensures |r| == |es|
    ensures forall j :: 0 <= j < |r| ==> r[j].name == es[j].name
    decreases p
  {
    if p == 0 then es
    else
      var prev := EnrichedUpTo(es, index, order, rels, names, p - 1);
      var n := order[p - 1];
      var i := index[n];
      if n in rels then prev[i := Extend(prev[i], rels[n], names)] else prev
  }

  /** The first key position from `p` on whose overrides stop at a
      missing target, or `|order|`. */
  function FailurePos(order: seq<string>, rels: map<string, seq<Override>>, names: set<string>, p: nat): (r: nat)
    requires p <= |order|
    ensures p <= r <= |order|
    decreases |order| - p
  {
    if p == |order| then p
    else if order[p] in rels && AddedBy(order[p], rels[order[p]], names).failed then p
    else FailurePos(order, rels, names, p + 1)
  }

  /** An entity that is not the last with its name is never touched, and
      the last one with a name is extended exactly once, when its key
      position is reached. */
  lemma {:induction false} EnrichedUpToFacts(es: seq<Entity>, index: map<string, nat>, order: seq<string>,
                                             rels: map<string, seq<Override>>, names: set<string>, p: nat, i: nat)
    requires Keyed(es, index, order) && Distinct(order) && p <= |order|
    requires i < |es| && es[i].name in index
    ensures var n := es[i].name;
      EnrichedUpTo(es, index, order, rels, names, p)[i] ==
        if index[n] == i && n in rels && n in order[..p] then Extend(es[i], rels[n], names) else es[i]
    decreases p
  {
    if p > 0 {
      EnrichedUpToFacts(es, index, order, rels, names, p - 1, i);
      assert order[..p] == order[..p - 1] + [order[p - 1]];
      var n := es[i].name;
      if n == order[p - 1] {
        assert n !in order[..p - 1];
      }
    }
  }

  // ---------------------------------------------------------------------
  // generate_mapping_file

  /** One entry of the template mapping. */
  datatype Template = Template(target: string, kind: string, fieldName: string, bidirectional: bool,
                               cascade: seq<string>, fetch: string, optional: bool)

  /** The names of the entities. */
  function Names(es: seq<Entity>): set<string> {
    set i | 0 <= i < |es| :: es[i].name
  }

  /** `name[0].lower() + name[1:]`; the empty name never reaches it. */
  function LowerFirst(t: string): string {
    if |t| == 0 then "" else [Lower(t[0])] + t[1..]
  }

  /** The template entry aimed at `target`. */
  function TemplateTo(target: string): Template {
    Template(target, DefaultKind, LowerFirst(target), false, ["ALL"], "LAZY", true)
  }

  /** The template entries of `source`: one for each entity of another
      name, in list order. */
  function TemplatesFor(es: seq<Entity>, source: string): (r: seq<Template>)
    ensures forall k :: 0 <= k < |r| ==> r[k].target != source && r[k].target in Names(es)
    ensures forall k :: 0 <= k < |r| ==> r[k] == TemplateTo(r[k].target)
    decreases |es|
  {
    if |es| == 0 then []
    else
      var rest := TemplatesFor(es[..|es| - 1], source);
      var t := es[|es| - 1].name;
      assert Names(es[..|es| - 1]) <= Names(es) by {
        forall n | n in Names(es[..|es| - 1]) ensures n in Names(es) {
          var i :| 0 <= i < |es| - 1 && es[..|es| - 1][i].name == n;
          assert es[i].name == n;
        }
      }
      if t != source then rest + [TemplateTo(t)] else rest
  }

  /** The number of entities named `n`. */
  function CountNamed(es: seq<Entity>, n: string): nat
    decreases |es|
  {
    if |es| == 0 then 0
    else CountNamed(es[..|es| - 1], n) + (if es[|es| - 1].name == n then 1 else 0)
  }

  /** Every entity not named `source` contributes exactly one entry. */
  lemma {:induction false} TemplateCount(es: seq<Entity>, source: string)
    ensures |TemplatesFor(es, source)| + CountNamed(es, source) == |es|
    decreases |es|
  {
    if |es| > 0 {
      TemplateCount(es[..|es| - 1], source);
    }
  }

  /** Every entity of another name is the target of some entry. */
  lemma {:induction false} TemplatesCoverOthers(es: seq<Entity>, source: string, j: nat)
    requires j < |es| && es[j].name != source
    ensures exists k :: 0 <= k < |TemplatesFor(es, source)| && TemplatesFor(es, source)[k].target == es[j].name
    decreases |es|
  {
    var r := TemplatesFor(es, source);
    if j == |es| - 1 {
      assert r[|r| - 1].target == es[j].name;
    } else {
      TemplatesCoverOthers(es[..|es| - 1], source, j);
      var k :| 0 <= k < |TemplatesFor(es[..|es| - 1], source)| && TemplatesFor(es[..|es| - 1], source)[k].target == es[j].name;
      assert r[k].target == es[j].name;
    }
  }

  /** With distinct names, `source` gets one entry per other entity. */
  lemma {:induction false} DistinctNamesTemplates(es: seq<Entity>, source: string, i: nat)
    requires forall p, q :: 0 <= p < q < |es| ==> es[p].name != es[q].name
    requires i < |es| && es[i].name == source
    ensures |TemplatesFor(es, source)| == |es| - 1
  {
    TemplateCount(es, source);
    CountOne(es, source, i);
  }

  lemma {:induction false} CountOne(es: seq<Entity>, n: string, i: nat)
    requires forall p, q :: 0 <= p < q < |es| ==> es[p].name != es[q].name
    requires i < |es| && es[i].name == n
    ensures CountNamed(es, n) == 1
    decreases |es|
  {
    if i == |es| - 1 {
      CountNone(es[..|es| - 1], n);
    } else {
      CountOne(es[..|es| - 1], n, i);
    }
  }

  lemma {:induction false} CountNone(es: seq<Entity>, n: string)
    requires forall p :: 0 <= p < |es| ==> es[p].name != n
    ensures CountNamed(es, n) == 0
    decreases |es|
  {
    if |es| > 0 {
      CountNone(es[..|es| - 1], n);
    }
  }

  /** Some entity has an empty name and another a different one, so
      `target_name[0]` is evaluated on an empty string (`IndexError`). */
  predicate EmptyTargetReached(es: seq<Entity>) {
    (exists j :: 0 <= j < |es| && es[j].name == "") && (exists i :: 0 <= i < |es| && es[i].name != "")
  }

  // ---------------------------------------------------------------------
  // analyze_entity_fields

  /** A detected relationship; `bidirectional` is always false. */
  datatype Detected = Detected(target: string, kind: string, fieldName: string)

  predicate ListShaped(t: string) {
    StartsWith(t, "List<") && EndsWith(t, ">")
  }

  /** The relationship one field suggests: a `List<E>` type, else an
      entity type, else a name `eId` with `E` an entity. A `List<...>`
      type whose element is no entity suggests nothing. */
  function DetectField(f: Field, names: set<string>): (d: Option<Detected>)
    ensures d.Some? ==> d.value.target in names
    ensures d.Some? ==> (d.value.kind == "one-to-many" <==> ListShaped(f.fieldType))
    ensures d.Some? ==> d.value.kind in {"one-to-many", "many-to-one"}
  {
    var t := f.fieldType;
    var n := f.name;
    if ListShaped(t) then
      assert |t| >= 6 by {
        assert t[..5][4] == '<';
        assert t[|t| - 1..][0] == '>';
      }
      var inner := t[5..|t| - 1];
      if inner in names then Some(Detected(inner, "one-to-many", n)) else None
    else if t in names then Some(Detected(t, "many-to-one", n))
    else if EndsWith(n, "Id") && n != "id" then
      var potential := [Upper(n[0])] + (if |n| >= 3 then n[1..|n| - 2] else "");
      if potential in names then Some(Detected(potential, "many-to-one", n[..|n| - 2])) else None
    else None
  }

  /** `List<x>` unwraps to `x`. */
  lemma ListRule(name: string, x: string, anns: seq<string>, names: set<string>)
    ensures DetectField(Field(name, "List<" + x + ">", anns), names) ==
      if x in names then Some(Detected(x, "one-to-many", name)) else None
  {
    var t := "List<" + x + ">";
    assert t[..5] == "List<" && t[|t| - 1..] == ">";
    assert t[5..|t| - 1] == x;
  }

  /** A field `wId` of a non-entity type points at the entity `w`
      capitalised, under the field name `w`. */
  lemma IdRule(w: string, ty: string, anns: seq<string>, names: set<string>)
    requires |w| >= 1 && w + "Id" != "id"
    requires !ListShaped(ty) && ty !in names
    requires [Upper(w[0])] + w[1..] in names
    ensures DetectField(Field(w + "Id", ty, anns), names) ==
      Some(Detected([Upper(w[0])] + w[1..], "many-to-one", w))
  {
    var n := w + "Id";
    assert n[|n| - 2..] == "Id" && n[..|n| - 2] == w && n[0] == w[0];
    if |w| >= 2 {
      assert n[1..|n| - 2] == w[1..];
    }
  }

  /** The relationships the fields of one entity suggest, in field order. */
  function DetectedIn(fields: seq<Field>, names: set<string>): (r: seq<Detected>)
    ensures |r| <= |fields|
    ensures forall k :: 0 <= k < |r| ==> r[k].target in names
    decreases |fields|
  {
    if |fields| == 0 then []
    else
      var rest := DetectedIn(fields[..|fields| - 1], names);
      match DetectField(fields[|fields| - 1], names)
      case Some(d) => rest + [d]
      case None => rest
  }

  /** What `analyze_entity_fields` reports for `n`: the suggestions of the
      last entity with that name. */
  function Detections(es: seq<Entity>, n: string): seq<Detected>
    requires n in LastIndex(es)
  {
    DetectedIn(es[LastIndex(es)[n]].fields, Names(es))
  }

  /** The inner loop of `generate_mapping_file` for one source: its entries,
      or `None` when an empty target name is reached. */
  method TemplateEntries(es: seq<Entity>, source: string) returns (list: Option<seq<Template>>)
    ensures list.None? <==> source != "" && exists j :: 0 <= j < |es| && es[j].name == ""
    ensures list.Some? ==> list.value == TemplatesFor(es, source)
  {
    var entries: seq<Template> := [];
    for j := 0 to |es|
      invariant entries == TemplatesFor(es[..j], source)
      invariant source != "" ==> forall j' :: 0 <= j' < j ==> es[j'].name != ""
    {
      assert es[..j + 1][..j] == es[..j];
      var target := es[j].name;
      if target != source {
        if |target| == 0 {
          return None;
        }
        entries := entries + [Template(target, "one-to-many", [Lower(target[0])] + target[1..], false, ["ALL"], "LAZY", true)];
      }
    }
    assert es[..|es|] == es;
    return Some(entries);
  }

  lemma NamesStep(es: seq<Entity>, i: nat)
    requires i < |es|
    ensures Names(es[..i + 1]) == Names(es[..i]) + {es[i].name}
  {
    assert es[..i + 1][i].name == es[i].name;
    forall n | n in Names(es[..i]) ensures n in Names(es[..i + 1]) {
      var k :| 0 <= k < i && es[..i][k].name == n;
      assert es[..i + 1][k].name == n;
    }
  }

  /** The inner loop of `analyze_entity_fields` over one entity's fields. */
  method DetectAll(fields: seq<Field>, names: set<string>) returns (list: seq<Detected>)
    ensures list == DetectedIn(fields, names)
  {
    list := [];
    for k := 0 to |fields|
      invariant list == DetectedIn(fields[..k], names)
    {
      assert fields[..k + 1][..k] == fields[..k];
      var d := DetectField(fields[k], names);
      if d.Some? {
        list := list + [d.value];
      }
    }
    assert fields[..|fields|] == fields;
  }

  /** `m` holds, for every name of `es`, the suggestions of its last entity. */
  predicate DetectedMatches(m: map<string, seq<Detected>>, es: seq<Entity>, names: set<string>) {
    m.Keys == LastIndex(es).Keys
    && forall n :: n in m ==> m[n] == DetectedIn(es[LastIndex(es)[n]].fields, names)
  }

  lemma DetectedMatchesStep(m: map<string, seq<Detected>>, pre: seq<Entity>, e: Entity, names: set<string>, list: seq<Detected>)
    requires DetectedMatches(m, pre, names)
    requires list == DetectedIn(e.fields, names)
    ensures DetectedMatches(m[e.name := list], pre + [e], names)
  {
    var post := pre + [e];
    var m' := m[e.name := list];
    LastIndexSnoc(pre, e);
    var before, after := LastIndex(pre), LastIndex(post);
    assert m'.Keys == after.Keys;
    forall n | n in m'
      ensures m'[n] == DetectedIn(post[after[n]].fields, names)
    {
      if n == e.name {
        assert post[after[n]] == e;
      } else {
        var j := before[n];
        assert after[n] == j && j < |pre|;
        assert post[j] == pre[j];
        assert m'[n] == m[n] == DetectedIn(pre[j].fields, names);
      }
    }
  }

  /** Dropping the empty lists keeps exactly the names with suggestions. */
  lemma NonEmptyDetections(d: map<string, seq<Detected>>, r: map<string, seq<Detected>>, es: seq<Entity>)
    requires DetectedMatches(d, es, Names(es))
    requires r == map n | n in d && d[n] != [] :: d[n]
    ensures forall n :: n in r <==> n in LastIndex(es) && Detections(es, n) != []
    ensures forall n :: n in r ==> r[n] == Detections(es, n)
  {
  }

  lemma LastIndexSnoc(pre: seq<Entity>, e: Entity)
    ensures LastIndex(pre + [e]) == LastIndex(pre)[e.name := |pre|]
  {
    assert (pre + [e])[..|pre|] == pre;
  }

  lemma NamesOfElements(es: seq<Entity>, names: set<string>)
    requires names == set e | e in es :: e.name
    ensures names == Names(es)
  {
    forall n | n in Names(es) ensures n in (set e | e in es :: e.name) {
      var k :| 0 <= k < |es| && es[k].name == n;
      assert es[k] in es;
    }
  }

  class SchemaRelationshipMapper {
    var relationships: map<string, seq<Override>>

    /** `SchemaRelationshipMapper()` without a mapping file. */
    constructor ()
      ensures relationships == map[]
    {
      relationships := map[];
    }

    /** `_load_mapping_file`: reading and parsing the file is outside the
        model; `loaded` is the parsed mapping, or `None` when the read or
        the parse fails, which leaves no overrides at all. */
    method LoadMappingFile(loaded: Option<map<string, seq<Override>>>)
      modifies this
      ensures relationships == if loaded.Some? then loaded.value else map[]
    {
      if loaded.Some? {
        relationships := loaded.value;
      } else {
        relationships := map[];
      }
    }

    /** Appends the fields `source`'s overrides add to entity `i`. */
    method AddRelationshipFields(a: array<Entity>, i: nat, rels: seq<Override>, names: set<string>) returns (failed: bool)
      requires i < a.Length
      modifies a
      ensures a[..] == old(a[..])[i := Extend(old(a[i]), rels, names)]
      ensures failed == AddedBy(old(a[i]).name, rels, names).failed
    {
      var source := a[i].name;
      ghost var e0 := a[i];
      for r := 0 to |rels|
        invariant a[..] == old(a[..])[i := a[i]]
        invariant a[i] == e0.(fields := e0.fields + AddedBy(source, rels[..r], names).fields)
        invariant !AddedBy(source, rels[..r], names).failed
      {
        AddedStep(source, rels, r, names);
        var o := rels[r];
        if o.target.None? {
          failed := true;
          assert rels[..r + 1] + rels[r + 1..] == rels;
          FailureIsFinal(source, rels[..r + 1], rels[r + 1..], names);
          return;
        }
        var target := o.target.value;
        var kind := if o.kind.Some? then o.kind.value else DefaultKind;
        var fieldName := if o.fieldName.Some? then o.fieldName.value else LowerStr(target);
        if target !in names {
          continue;
        }
        var field := FieldFor(source, target, kind, fieldName);
        if field.Some? {
          a[i] := a[i].(fields := a[i].fields + [field.value]);
        }
      }
      assert rels[..|rels|] == rels;
      failed := false;
    }

    /** `enrich_entities(entities)`. Without overrides the list is returned
        as it is. Otherwise each distinct name is visited in order of first
        occurrence, its last entity gains the fields its overrides add, and
        the result holds those entities; an override entry without a target
        aborts the call, keeping the fields added so far. */
    method EnrichEntities(a: array<Entity>) returns (r: Enrichment)
      modifies a
      ensures relationships == map[] ==> r == Enriched(old(a[..])) && a[..] == old(a[..])
      ensures relationships != map[] ==>
        var es := old(a[..]);
        var index := LastIndex(es);
        var order := FirstOrder(es);
        var stop := FailurePos(order, relationships, index.Keys, 0);
        Keyed(es, index, order)
        && a[..] == EnrichedUpTo(es, index, order, relationships, index.Keys, if stop < |order| then stop + 1 else |order|)
        && (stop < |order| ==> r == AttributeError(order[stop]))
        && (stop == |order| ==>
              r.Enriched? && |r.entities| == |order|
              && forall p :: 0 <= p < |order| ==> r.entities[p] == a[index[order[p]]])
    {
      if relationships == map[] {
        return Enriched(a[..]);
      }
      ghost var es := a[..];
      var index, order := BuildEntityMap(a);
      EntityMapKeyed(es);
      r := EnrichInOrder(a, index, order, es);
    }

    /** One iteration of the loop of `enrich_entities`: the source at key
        position `p`. */
    method EnrichOne(a: array<Entity>, index: map<string, nat>, order: seq<string>, ghost es: seq<Entity>, p: nat)
        returns (failed: bool)
      requires Keyed(es, index, order) && p < |order|
      requires a[..] == EnrichedUpTo(es, index, order, relationships, index.Keys, p)
      modifies a
      ensures a[..] == EnrichedUpTo(es, index, order, relationships, index.Keys, p + 1)
      ensures failed <==> order[p] in relationships && AddedBy(order[p], relationships[order[p]], index.Keys).failed
    {
      var name := order[p];
      var i := index[name];
      failed := false;
      if name in relationships {
        assert a[i].name == name;
        failed := AddRelationshipFields(a, i, relationships[name], index.Keys);
      }
    }

    /** The loop of `enrich_entities` over the keys of `entity_map`. */
    method EnrichInOrder(a: array<Entity>, index: map<string, nat>, order: seq<string>, ghost es: seq<Entity>)
        returns (r: Enrichment)
      requires a[..] == es && Keyed(es, index, order) && Distinct(order)
      modifies a
      ensures var stop := FailurePos(order, relationships, index.Keys, 0);
        a[..] == EnrichedUpTo(es, index, order, relationships, index.Keys, if stop < |order| then stop + 1 else |order|)
        && (stop < |order| ==> r == AttributeError(order[stop]))
        && (stop == |order| ==>
              r.Enriched? && |r.entities| == |order|
              && forall p :: 0 <= p < |order| ==> r.entities[p] == a[index[order[p]]])
    {
      var names := index.Keys;
      var enriched: seq<Entity> := [];
      for p := 0 to |order|
        invariant a[..] == EnrichedUpTo(es, index, order, relationships, names, p)
        invariant FailurePos(order, relationships, names, 0) >= p
        invariant |enriched| == p && Gathered(enriched, a[..], index, order)
      {
        var name := order[p];
        var i := index[name];
        var failed := EnrichOne(a, index, order, es, p);
        FailurePosFrom(order, relationships, names, 0, p);
        if failed {
          return AttributeError(name);
        }
        GatherStep(es, index, order, relationships, names, enriched, p);
        enriched := enriched + [a[i]];
      }
      return Enriched(enriched);
    }

    /** `generate_mapping_file(entities, ...)`: the mapping it writes, one
        template entry from each entity to each entity of another name, or
        `None` when it raises `IndexError` on an empty target name. */
    method GenerateMappingTemplate(es: seq<Entity>) returns (r: Option<map<string, seq<Template>>>)
      ensures r.None? <==> EmptyTargetReached(es)
      ensures r.Some? ==> r.value.Keys == Names(es)
      ensures r.Some? ==> forall n :: n in r.value ==> r.value[n] == TemplatesFor(es, n)
    {
      var mapping: map<string, seq<Template>> := map[];
      for i := 0 to |es|
        invariant mapping.Keys == Names(es[..i])
        invariant forall n :: n in mapping ==> mapping[n] == TemplatesFor(es, n)
        invariant forall i' :: 0 <= i' < i && es[i'].name != "" ==> forall j :: 0 <= j < |es| ==> es[j].name != ""
      {
        var source := es[i].name;
        var list := TemplateEntries(es, source);
        if list.None? {
          assert EmptyTargetReached(es);
          return None;
        }
        NamesStep(es, i);
        mapping := mapping[source := list.value];
      }
      assert es[..|es|] == es;
      return Some(mapping);
    }

    /** `analyze_entity_fields(entities)`: for every name whose last entity
        suggests some relationship, those suggestions. */
    method AnalyzeEntityFields(es: seq<Entity>) returns (r: map<string, seq<Detected>>)
      ensures forall n :: n in r <==> n in LastIndex(es) && Detections(es, n) != []
      ensures forall n :: n in r ==> r[n] == Detections(es, n)
    {
      var names := set e | e in es :: e.name;
      NamesOfElements(es, names);
      var detected: map<string, seq<Detected>> := map[];
      for i := 0 to |es|
        invariant DetectedMatches(detected, es[..i], names)
      {
        var list := DetectAll(es[i].fields, names);
        DetectedMatchesStep(detected, es[..i], es[i], names, list);
        TakeSnoc(es, i);
        detected := detected[es[i].name := list];
      }
      assert es[..|es|] == es;
      r := map n | n in detected && detected[n] != [] :: detected[n];
      NonEmptyDetections(detected, r, es);
    }
  }

  /** `en` lists, key by key, the current entity of each key of `order`. */
  predicate Gathered(en: seq<Entity>, cur: seq<Entity>, index: map<string, nat>, order: seq<string>) {
    |en| <= |order|
    && forall q :: 0 <= q < |en| ==> order[q] in index && index[order[q]] < |cur| && en[q] == cur[index[order[q]]]
  }

  /** Visiting key position `p` changes only the entity of that key, so the
      entities gathered for earlier keys stay current. */
  lemma GatherStep(es: seq<Entity>, index: map<string, nat>, order: seq<string>,
                   rels: map<string, seq<Override>>, names: set<string>, en: seq<Entity>, p: nat)
    requires Keyed(es, index, order) && Distinct(order) && p < |order| && |en| == p
    requires Gathered(en, EnrichedUpTo(es, index, order, rels, names, p), index, order)
    ensures var after := EnrichedUpTo(es, index, order, rels, names, p + 1);
      Gathered(en + [after[index[order[p]]]], after, index, order)
  {
    var before := EnrichedUpTo(es, index, order, rels, names, p);
    var after := EnrichedUpTo(es, index, order, rels, names, p + 1);
    var i := index[order[p]];
    forall q | 0 <= q < p
      ensures after[index[order[q]]] == before[index[order[q]]]
    {
      assert order[q] != order[p];
    }
  }

  /** Searching from `q` gives what searching from `p` gives once no
      failure lies between. */
  lemma {:induction false} FailurePosFrom(order: seq<string>, rels: map<string, seq<Override>>, names: set<string>, q: nat, p: nat)
    requires q <= p < |order| && FailurePos(order, rels, names, q) >= p
    ensures FailurePos(order, rels, names, q) == FailurePos(order, rels, names, p)
    decreases p - q
  {
    if q < p {
      FailurePosFrom(order, rels, names, q + 1, p);
    }
  }

  // ---------------------------------------------------------------------
  // The join-column annotation

  /** As written, the join column of a one-to-one or many-to-one field
      does not depend on the field's name: any two fields on the same
      target get the same annotations, where the intended annotations of
      two differently named fields differ. */
  lemma JoinColumnIgnoresFieldName(source: string, target: string, kind: string, a: string, b: string)
    requires kind in {"one-to-one", "many-to-one"}
    ensures FieldFor(source, target, kind, a).value.annotations == FieldFor(source, target, kind, b).value.annotations
    ensures a != b ==>
      (FieldForIntended(source, target, kind, a).value.annotations
       != FieldForIntended(source, target, kind, b).value.annotations)
  {
    IntendedJoinColumnNamesField(source, target, kind, a, b);
  }

  /** The join-column annotation the entry evidently means: the field's
      own name followed by `_id`. */
  function JoinColumnFor(fieldName: string): (a: string)
    ensures |a| == |fieldName| + 25
    ensures a[20..20 + |fieldName|] == fieldName
  {
    "@JoinColumn(name = \"" + fieldName + "_id\")"
  }

  /** Distinct field names give distinct join columns. */
  lemma JoinColumnInjective(a: string, b: string)
    ensures JoinColumnFor(a) == JoinColumnFor(b) <==> a == b
  {
    if JoinColumnFor(a) == JoinColumnFor(b) {
      assert |a| == |b|;
      assert a == JoinColumnFor(a)[20..20 + |a|];
    }
  }

  /** `FieldFor` with the join column naming the field. */
  function FieldForIntended(source: string, target: string, kind: string, fieldName: string): (f: Option<Field>)
    ensures f.Some? <==> FieldFor(source, target, kind, fieldName).Some?
    ensures kind in {"one-to-one", "many-to-one"} ==>
      f.value.name == fieldName && f.value.fieldType == target
      && |f.value.annotations| == 2 && f.value.annotations[1] == JoinColumnFor(fieldName)
    ensures kind !in {"one-to-one", "many-to-one"} ==> f == FieldFor(source, target, kind, fieldName)
  {
    if kind in {"one-to-one", "many-to-one"} then
      var asWritten := FieldFor(source, target, kind, fieldName).value;
      Some(asWritten.(annotations := [asWritten.annotations[0], JoinColumnFor(fieldName)]))
    else FieldFor(source, target, kind, fieldName)
  }

  /** With the intended annotation, two one-to-one or many-to-one fields
      share their annotations exactly when they share their name. */
  lemma IntendedJoinColumnNamesField(source: string, target: string, kind: string, a: string, b: string)
    requires kind in {"one-to-one", "many-to-one"}
    ensures (FieldForIntended(source, target, kind, a).value.annotations
      == FieldForIntended(source, target, kind, b).value.annotations) <==> a == b
  {
    var fa := FieldForIntended(source, target, kind, a).value;
    var fb := FieldForIntended(source, target, kind, b).value;
    if fa.annotations == fb.annotations {
      JoinColumnInjective(a, b);
    }
  }
}
