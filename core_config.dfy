/** The nested `Config` of src/core/config.py: a dictionary of sections
    read and written by dot-separated key paths, deep-merged with a loaded
    file and overridden from `MICROGENESIS_*` environment variables.

    `config_data` starts as a shallow copy of the class attribute
    `DEFAULT_CONFIG`, so each section dictionary is shared by every
    instance until the instance replaces it. The model keeps that sharing:
    a top-level slot is either `Shared` (the section dictionary held by the
    one `DefaultConfig` object) or `Own` (a value of this instance). */
module CoreConfig {
  import opened Wrappers
  import opened Strings
  import opened JsonValue

  // ---------------------------------------------------------------------
  // Key paths over nested dictionaries

  /** The value reached by following `keys` from `j`; `d` as soon as a key
      is missing or the value on the way is not a dictionary. */
  function GetIn(j: Json, keys: seq<string>, d: Json): (r: Json)
    ensures !HasPath(j, keys) ==> r == d
    decreases |keys|
  {
    if |keys| == 0 then j
    else if j.Obj? && keys[0] in j.m then GetIn(j.m[keys[0]], keys[1..], d)
    else d
  }

  /** `keys` can be followed from `j` to the end. */
  ghost predicate HasPath(j: Json, keys: seq<string>)
    decreases |keys|
  {
    |keys| == 0 || (j.Obj? && keys[0] in j.m && HasPath(j.m[keys[0]], keys[1..]))
  }

  /** The dictionary under `k`, or a new empty one when `k` is missing or
      holds something else. */
  function Child(m: map<string, Json>, k: string): map<string, Json> {
    if k in m && m[k].Obj? then m[k].m else map[]
  }

  /** `m` after setting `keys` to `v`: each missing or non-dictionary
      intermediate is replaced by a new dictionary. */
  function SetIn(m: map<string, Json>, keys: seq<string>, v: Json): (r: map<string, Json>)
    requires |keys| >= 1
    ensures r.Keys == m.Keys + {keys[0]}
    ensures forall k :: k in m && k != keys[0] ==> r[k] == m[k]
    decreases |keys|
  {
    if |keys| == 1 then m[keys[0] := v]
    else m[keys[0] := Obj(SetIn(Child(m, keys[0]), keys[1..], v))]
  }

  /** Setting a path and reading it back gives the value set. */
  lemma {:induction false} SetThenGet(m: map<string, Json>, keys: seq<string>, v: Json, d: Json)
    requires |keys| >= 1
    ensures GetIn(Obj(SetIn(m, keys, v)), keys, d) == v
    decreases |keys|
  {
    if |keys| > 1 {
      SetThenGet(Child(m, keys[0]), keys[1..], v, d);
    }
  }

  /** Setting a path leaves every path that branches off it before its end
      as it was. */
  lemma {:induction false} SetIsLocal(m: map<string, Json>, keys: seq<string>, v: Json, other: seq<string>, i: nat, d: Json)
    requires i < |keys| && i < |other| && keys[..i] == other[..i] && keys[i] != other[i]
    ensures GetIn(Obj(SetIn(m, keys, v)), other, d) == GetIn(Obj(m), other, d)
    decreases i
  {
    if i > 0 {
      assert keys[0] == other[0];
      var c := Child(m, keys[0]);
      assert keys[1..][..i - 1] == other[1..][..i - 1];
      SetIsLocal(c, keys[1..], v, other[1..], i - 1, d);
      if keys[0] in m && m[keys[0]].Obj? {
      } else {
        assert GetIn(Obj(c), other[1..], d) == d by { EmptyGet(other[1..], d); }
      }
    }
  }

  /** A lookup of a non-empty path in an empty dictionary fails. */
  lemma EmptyGet(keys: seq<string>, d: Json)
    requires |keys| >= 1
    ensures GetIn(Obj(map[]), keys, d) == d
  {
  }

  // ---------------------------------------------------------------------
  // _deep_update

  /** `_deep_update(target, source)` on values: a key holding a dictionary
      on both sides is merged recursively, any other source entry
      overwrites, and target-only keys stay. */
  function DeepMerge(t: map<string, Json>, s: map<string, Json>): (r: map<string, Json>)
    ensures r.Keys == t.Keys + s.Keys
    decreases Obj(s), 0
  {
    map k | k in t.Keys + s.Keys ::
      if k in s then MergeEntry(t, k, s[k]) else t[k]
  }

  /** What `_deep_update` leaves under a source key `k` holding `v`. */
  function MergeEntry(t: map<string, Json>, k: string, v: Json): Json
    decreases v, 1
  {
    if v.Obj? && k in t && t[k].Obj? then Obj(DeepMerge(t[k].m, v.m)) else v
  }

  /** Merging a dictionary into itself changes nothing. */
  lemma {:induction false} MergeIdempotent(t: map<string, Json>)
    ensures DeepMerge(t, t) == t
    decreases Obj(t)
  {
    forall k | k in t
      ensures DeepMerge(t, t)[k] == t[k]
    {
      if t[k].Obj? {
        MergeIdempotent(t[k].m);
      }
    }
  }

  /** A path through the source that ends on a value other than a
      dictionary reads that value after the merge. */
  lemma {:induction false} MergeSourceWins(t: map<string, Json>, s: map<string, Json>, p: seq<string>, d: Json)
    requires |p| >= 1 && HasPath(Obj(s), p) && !GetIn(Obj(s), p, d).Obj?
    ensures GetIn(Obj(DeepMerge(t, s)), p, d) == GetIn(Obj(s), p, d)
    decreases |p|
  {
    var k := p[0];
    if |p| > 1 && s[k].Obj? && k in t && t[k].Obj? {
      MergeSourceWins(t[k].m, s[k].m, p[1..], d);
    }
  }

  /** The path `p` leaves the source's dictionaries at a missing key. */
  ghost predicate OffSource(s: map<string, Json>, p: seq<string>)
    decreases |p|
  {
    |p| >= 1 && (p[0] !in s || (s[p[0]].Obj? && OffSource(s[p[0]].m, p[1..])))
  }

  /** A path of the target that the source does not reach reads the same
      after the merge. */
  lemma {:induction false} MergeKeepsTarget(t: map<string, Json>, s: map<string, Json>, p: seq<string>, d: Json)
    requires HasPath(Obj(t), p) && OffSource(s, p)
    ensures GetIn(Obj(DeepMerge(t, s)), p, d) == GetIn(Obj(t), p, d)
    decreases |p|
  {
    var k := p[0];
    if k in s {
      MergeKeepsTarget(t[k].m, s[k].m, p[1..], d);
    }
  }

  /** Merging one more source key changes only that key. */
  lemma MergeInsert(t: map<string, Json>, s: map<string, Json>, k: string, v: Json)
    requires k !in s
    ensures DeepMerge(t, s[k := v]) == DeepMerge(t, s)[k := MergeEntry(t, k, v)]
  {
    var l := DeepMerge(t, s[k := v]);
    var r := DeepMerge(t, s)[k := MergeEntry(t, k, v)];
    forall j | j in l
      ensures l[j] == r[j]
    {
      if j != k && j in s {
        assert s[k := v][j] == s[j];
      }
    }
  }

  /** Merging the source key by key: after the keys in `done`, one more
      key `k` updates only `k`, from the target's own entry. */
  lemma MergeStep(t: map<string, Json>, s: map<string, Json>, done: set<string>, k: string)
    requires k in s && k !in done
    ensures var before := DeepMerge(t, Restrict(s, done));
      before[k := MergeEntry(before, k, s[k])] == DeepMerge(t, Restrict(s, done + {k}))
  {
    var before := DeepMerge(t, Restrict(s, done));
    assert k !in before || before[k] == t[k];
    assert MergeEntry(before, k, s[k]) == MergeEntry(t, k, s[k]);
    MergeInsert(t, Restrict(s, done), k, s[k]);
    assert Restrict(s, done + {k}) == Restrict(s, done)[k := s[k]];
  }

  /** `source` restricted to the keys in `ks`. */
  function Restrict(s: map<string, Json>, ks: set<string>): (r: map<string, Json>)
    ensures r.Keys == s.Keys * ks
  {
    map k | k in s.Keys * ks :: s[k]
  }

  // ---------------------------------------------------------------------
  // Environment overrides

  const EnvPrefix: string := "MICROGENESIS_"

  /** `s.replace("__", ".")`: occurrences are replaced left to right and
      do not overlap. */
  function ReplaceDunder(s: string): string
    decreases |s|
  {
    if |s| < 2 then s
    else if s[0] == '_' && s[1] == '_' then "." + ReplaceDunder(s[2..])
    else [s[0]] + ReplaceDunder(s[1..])
  }

  /** `t` holds no two underscores side by side. */
  predicate NoDoubleUnderscore(t: string) {
    forall i :: 0 <= i < |t| - 1 ==> !(t[i] == '_' && t[i + 1] == '_')
  }

  /** No two underscores are left side by side: each `__` is replaced, and
      an `_` that starts the result started `s` without a second one. */
  lemma {:induction false} ReplaceDunderNoDoubles(s: string)
    ensures NoDoubleUnderscore(ReplaceDunder(s))
    ensures var r := ReplaceDunder(s);
      |r| > 0 && r[0] == '_' ==> s[0] == '_' && (|s| == 1 || s[1] != '_')
    decreases |s|
  {
    if |s| >= 2 {
      if s[0] == '_' && s[1] == '_' {
        ReplaceDunderNoDoubles(s[2..]);
        var r := ReplaceDunder(s);
        forall i | 0 <= i < |r| - 1 ensures !(r[i] == '_' && r[i + 1] == '_') {
          if i > 0 { assert r[i] == ReplaceDunder(s[2..])[i - 1]; }
        }
      } else {
        ReplaceDunderNoDoubles(s[1..]);
        var r := ReplaceDunder(s);
        forall i | 0 <= i < |r| - 1 ensures !(r[i] == '_' && r[i + 1] == '_') {
          if i > 0 { assert r[i] == ReplaceDunder(s[1..])[i - 1]; }
        }
      }
    }
  }

  /** The key path an environment variable overrides, if it has the
      prefix: the rest of its name, lower-cased, with `__` as `.`. A
      variable without the prefix overrides nothing, and a path never holds
      two underscores side by side. */
  function EnvKeyPath(name: string): (r: Option<string>)
    ensures r.Some? <==> StartsWith(name, EnvPrefix)
    ensures r.Some? ==> NoDoubleUnderscore(r.value)
  {
    if StartsWith(name, EnvPrefix) then
      var rest := LowerStr(name[|EnvPrefix|..]);
      ReplaceDunderNoDoubles(rest);
      Some(ReplaceDunder(rest))
    else None
  }

  lemma {:induction false} LowerJoin(segs: seq<string>, sep: string)
    requires LowerStr(sep) == sep
    ensures LowerStr(Join(segs, sep)) == Join(LowerAll(segs), sep)
    decreases |segs|
  {
    if |segs| > 1 {
      LowerJoin(segs[1..], sep);
      assert LowerAll(segs[1..]) == LowerAll(segs)[1..];
      LowerAppend(segs[0] + sep, Join(segs[1..], sep));
      LowerAppend(segs[0], sep);
    }
  }

  lemma {:induction false} ReplaceAfterWord(w: string, rest: string)
    requires '_' !in w
    ensures ReplaceDunder(w + rest) == w + ReplaceDunder(rest)
    decreases |w|
  {
    if |w| > 0 {
      ReplaceAfterWord(w[1..], rest);
      var s := w + rest;
      assert s[1..] == w[1..] + rest;
      assert s[0] == w[0] && w[0] != '_';
      if |s| >= 2 {
        assert ReplaceDunder(s) == [w[0]] + ReplaceDunder(w[1..] + rest);
        assert [w[0]] + (w[1..] + ReplaceDunder(rest)) == ([w[0]] + w[1..]) + ReplaceDunder(rest);
      } else {
        assert rest == [] && ReplaceDunder(rest) == [];
        assert ReplaceDunder(s) == s == w;
        assert w + [] == w;
      }
      assert [w[0]] + w[1..] == w;
    } else {
      assert w + rest == rest && w + ReplaceDunder(rest) == ReplaceDunder(rest);
    }
  }

  lemma {:induction false} DunderToDots(segs: seq<string>)
    requires forall i :: 0 <= i < |segs| ==> '_' !in segs[i]
    ensures ReplaceDunder(Join(segs, "__")) == Join(segs, ".")
    decreases |segs|
  {
    if |segs| == 1 {
      ReplaceAfterWord(segs[0], "");
      assert segs[0] + "" == segs[0];
    } else if |segs| > 1 {
      DunderToDots(segs[1..]);
      var tail := Join(segs[1..], "__");
      assert "__" + tail == ['_', '_'] + tail;
      ReplaceAfterWord(segs[0], "__" + tail);
      assert ("__" + tail)[2..] == tail;
      assert segs[0] + "__" + tail == segs[0] + ("__" + tail);
      assert segs[0] + "." + Join(segs[1..], ".") == segs[0] + ("." + Join(segs[1..], "."));
    }
  }

  lemma {:induction false} SplitOfJoin(segs: seq<string>, sep: char)
    requires |segs| >= 1
    requires forall i :: 0 <= i < |segs| ==> sep !in segs[i]
    ensures Split(Join(segs, [sep]), sep) == segs
    decreases |segs|
  {
    if |segs| == 1 {
      SplitNoSep(segs[0], sep);
    } else {
      SplitOfJoin(segs[1..], sep);
      SplitAtSep(segs[0], Join(segs[1..], [sep]), sep);
      assert [segs[0]] + segs[1..] == segs;
    }
  }

  lemma LowerKeepsOut(w: string)
    requires '_' !in w && '.' !in w
    ensures '_' !in LowerStr(w) && '.' !in LowerStr(w)
  {
    var l := LowerStr(w);
    forall i | 0 <= i < |l|
      ensures l[i] != '_' && l[i] != '.'
    {
      assert w[i] in w;
    }
  }

  lemma EnvNameRest(rest: string)
    ensures EnvKeyPath(EnvPrefix + rest) == Some(ReplaceDunder(LowerStr(rest)))
  {
    assert (EnvPrefix + rest)[|EnvPrefix|..] == rest;
  }

  /** The lowered segments are as free of `_` and `.` as the segments. */
  lemma LoweredSegmentsClean(segs: seq<string>)
    requires forall i :: 0 <= i < |segs| ==> '_' !in segs[i] && '.' !in segs[i]
    ensures forall i :: 0 <= i < |LowerAll(segs)| ==> '_' !in LowerAll(segs)[i] && '.' !in LowerAll(segs)[i]
  {
    forall i | 0 <= i < |segs|
      ensures '_' !in LowerAll(segs)[i] && '.' !in LowerAll(segs)[i]
    {
      LowerKeepsOut(segs[i]);
    }
  }

  /** The variable named by segments joined with `__` names the lowered
      segments joined with `__`, with `__` then replaced. */
  lemma EnvPathOfSegments(segs: seq<string>, sep: string)
    requires sep == "__"
    ensures EnvKeyPath(EnvPrefix + Join(segs, sep)) == Some(ReplaceDunder(Join(LowerAll(segs), sep)))
  {
    EnvNameRest(Join(segs, sep));
    LowerJoin(segs, sep);
  }

  /** `MICROGENESIS_A__B` overrides the path `a.b`: the segments between
      double underscores, lower-cased, are the keys followed. */
  lemma EnvTranslation(segs: seq<string>)
    requires |segs| >= 1
    requires forall i :: 0 <= i < |segs| ==> '_' !in segs[i] && '.' !in segs[i]
    ensures EnvKeyPath(EnvPrefix + Join(segs, "__")) == Some(Join(LowerAll(segs), "."))
    ensures Split(Join(LowerAll(segs), "."), '.') == LowerAll(segs)
  {
    var low := LowerAll(segs);
    LoweredSegmentsClean(segs);
    EnvPathOfSegments(segs, "__");
    DunderToDots(low);
    SplitOfJoin(low, '.');
  }

  /** The view after `set(path, value)` for each prefixed variable, in
      order. */
  function EnvApplied(view: map<string, Json>, env: seq<(string, string)>): map<string, Json>
    decreases |env|
  {
    if |env| == 0 then view
    else
      var before := EnvApplied(view, env[..|env| - 1]);
      var (name, value) := env[|env| - 1];
      match EnvKeyPath(name)
      case Some(path) => SetIn(before, Split(path, '.'), Str(value))
      case None => before
  }

  /** Variables without the prefix override nothing. */
  lemma {:induction false} EnvWithoutPrefix(view: map<string, Json>, env: seq<(string, string)>)
    requires forall i :: 0 <= i < |env| ==> !StartsWith(env[i].0, EnvPrefix)
    ensures EnvApplied(view, env) == view
    decreases |env|
  {
    if |env| > 0 {
      EnvWithoutPrefix(view, env[..|env| - 1]);
    }
  }

  /** The last prefixed variable decides its path. */
  lemma EnvLastWins(view: map<string, Json>, env: seq<(string, string)>, d: Json)
    requires |env| >= 1 && EnvKeyPath(env[|env| - 1].0).Some?
    ensures var path := EnvKeyPath(env[|env| - 1].0).value;
      GetIn(Obj(EnvApplied(view, env)), Split(path, '.'), d) == Str(env[|env| - 1].1)
  {
    var path := EnvKeyPath(env[|env| - 1].0).value;
    SetThenGet(EnvApplied(view, env[..|env| - 1]), Split(path, '.'), Str(env[|env| - 1].1), d);
  }

  // ---------------------------------------------------------------------
  // The store

  /** `Config.DEFAULT_CONFIG`, section by section. */
  function DefaultSections(): (r: map<string, map<string, Json>>)
    ensures r.Keys == {"application", "logging", "templates", "generators"}
  {
    map[
      "application" := map["name" := Str("MicroGenesis"), "version" := Str("1.0.0"),
                           "description" := Str("Application Scaffolding Generator")],
      "logging" := map["level" := Str("INFO"), "file" := Null],
      "templates" := map["base_path" := Null, "custom_paths" := Arr([])],
      "generators" := map[
        "frameworks" := Arr([Str("spring-boot"), Str("micronaut"), Str("graphql")]),
        "languages" := Arr([Str("java"), Str("kotlin")]),
        "build_systems" := Arr([Str("maven"), Str("gradle")]),
        "databases" := Arr([Str("mysql"), Str("postgresql"), Str("h2"), Str("mongodb"), Str("none")]),
        "pipelines" := Arr([Str("github-actions"), Str("jenkins"), Str("azure-devops"), Str("gitlab-ci")])]
    ]
  }

  /** The class attribute `DEFAULT_CONFIG`: its section dictionaries are the
      objects every new instance starts out sharing. */
  class DefaultConfig {
    var sections: map<string, map<string, Json>>

    constructor ()
      ensures sections == DefaultSections()
    {
      sections := DefaultSections();
    }
  }

  /** A top-level entry of `config_data`. */
  datatype Slot = Shared | Own(v: Json)

  /** Every shared slot names a section of the defaults. */
  predicate SlotsValid(data: map<string, Slot>, sections: map<string, map<string, Json>>) {
    forall k :: k in data && data[k].Shared? ==> k in sections
  }

  /** `config_data` as the dictionary it is. */
  function ViewOf(data: map<string, Slot>, sections: map<string, map<string, Json>>): (v: map<string, Json>)
    requires SlotsValid(data, sections)
    ensures v.Keys == data.Keys
  {
    map k | k in data :: if data[k].Shared? then Obj(sections[k]) else data[k].v
  }

  /** Giving a slot its own value changes only that key of the view. */
  lemma ViewOwn(data: map<string, Slot>, sections: map<string, map<string, Json>>, k: string, v: Json)
    requires SlotsValid(data, sections)
    ensures SlotsValid(data[k := Own(v)], sections)
    ensures ViewOf(data[k := Own(v)], sections) == ViewOf(data, sections)[k := v]
  {
  }

  /** Writing into a shared section changes only that key of the view. */
  lemma ViewShared(data: map<string, Slot>, sections: map<string, map<string, Json>>, k: string, m: map<string, Json>)
    requires SlotsValid(data, sections) && k in data && data[k].Shared?
    ensures SlotsValid(data, sections[k := m])
    ensures ViewOf(data, sections[k := m]) == ViewOf(data, sections)[k := Obj(m)]
  {
  }

  lemma GetFirst(m: map<string, Json>, keys: seq<string>, d: Json)
    requires |keys| >= 1 && keys[0] in m
    ensures GetIn(Obj(m), keys, d) == GetIn(m[keys[0]], keys[1..], d)
  {
  }

  lemma GetSingle(m: map<string, Json>, key: string, d: Json)
    requires key in m
    ensures GetIn(Obj(m), [key], d) == m[key]
  {
  }

  class Config {
    var data: map<string, Slot>
    const defaults: DefaultConfig

    ghost predicate Valid()
      reads this, defaults
    {
      SlotsValid(data, defaults.sections)
    }

    function View(): (v: map<string, Json>)
      reads this, defaults
      requires Valid()
      ensures v.Keys == data.Keys
    {
      ViewOf(data, defaults.sections)
    }

    /** `Config(config_path)` before `load()`: a shallow copy of
        `DEFAULT_CONFIG`, every section shared. */
    constructor (defaults: DefaultConfig)
      ensures this.defaults == defaults && Valid()
      ensures data.Keys == defaults.sections.Keys && forall k :: k in data ==> data[k] == Shared
      ensures View() == map k | k in defaults.sections :: Obj(defaults.sections[k])
    {
      this.defaults := defaults;
      data := map k | k in defaults.sections :: Shared;
    }

    /** `get(key_path, default)`: a key without a dot is looked up
        directly, and a path that cannot be followed gives the default. */
    function Get(keyPath: string, default: Json): (r: Json)
      reads this, defaults
      requires Valid()
      ensures '.' !in keyPath ==> r == if keyPath in View() then View()[keyPath] else default
      ensures !HasPath(Obj(View()), Split(keyPath, '.')) ==> r == default
    {
      if '.' !in keyPath then
        SplitNoSep(keyPath, '.');
        if keyPath in View() then
          GetSingle(View(), keyPath, default);
          GetIn(Obj(View()), Split(keyPath, '.'), default)
        else GetIn(Obj(View()), Split(keyPath, '.'), default)
      else GetIn(Obj(View()), Split(keyPath, '.'), default)
    }

    /** `set(key_path, value)`. Under a shared section the write goes into
        the defaults' dictionary, where every instance sharing it sees it. */
    method Set(keyPath: string, value: Json)
      requires Valid()
      modifies this, defaults
      ensures Valid()
      ensures View() == SetIn(old(View()), Split(keyPath, '.'), value)
      ensures forall d :: Get(keyPath, d) == value
      ensures defaults.sections.Keys == old(defaults.sections).Keys
      ensures forall s :: s in defaults.sections && s != Split(keyPath, '.')[0] ==>
        defaults.sections[s] == old(defaults.sections)[s]
      ensures forall j ::
        j in old(data) && old(data)[j].Shared? && (j != Split(keyPath, '.')[0] || |Split(keyPath, '.')| > 1) ==>
        j in data && data[j].Shared?
    {
      var keys := Split(keyPath, '.');
      var k := keys[0];
      ghost var v0 := View();
      if |keys| == 1 {
        ViewOwn(data, defaults.sections, k, value);
        data := data[k := Own(value)];
      } else if k in data && data[k].Shared? {
        var m := SetIn(defaults.sections[k], keys[1..], value);
        assert Child(v0, k) == defaults.sections[k];
        ViewShared(data, defaults.sections, k, m);
        defaults.sections := defaults.sections[k := m];
      } else {
        var child := if k in data && data[k].v.Obj? then data[k].v.m else map[];
        assert child == Child(v0, k);
        ViewOwn(data, defaults.sections, k, Obj(SetIn(child, keys[1..], value)));
        data := data[k := Own(Obj(SetIn(child, keys[1..], value)))];
      }
      forall d
        ensures Get(keyPath, d) == value
      {
        SetThenGet(v0, keys, value, d);
      }
    }

    /** One step of `_deep_update(self.config_data, source)`: the source
        key `k` holding `v`. */
    method MergeKey(k: string, v: Json)
      requires Valid()
      modifies this, defaults
      ensures Valid()
      ensures View() == old(View())[k := MergeEntry(old(View()), k, v)]
      ensures k in old(data) && old(data)[k].Shared? && v.Obj? ==> data[k].Shared?
      ensures forall j :: j != k ==> (j in data <==> j in old(data)) && (j in data ==> data[j] == old(data)[j])
      ensures defaults.sections.Keys == old(defaults.sections).Keys
      ensures forall j :: j != k && j in old(defaults.sections) ==> defaults.sections[j] == old(defaults.sections)[j]
    {
      if v.Obj? && k in data && (data[k].Shared? || data[k].v.Obj?) {
        if data[k].Shared? {
          var m := DeepMerge(defaults.sections[k], v.m);
          ViewShared(data, defaults.sections, k, m);
          defaults.sections := defaults.sections[k := m];
        } else {
          ViewOwn(data, defaults.sections, k, Obj(DeepMerge(data[k].v.m, v.m)));
          data := data[k := Own(Obj(DeepMerge(data[k].v.m, v.m)))];
        }
      } else {
        ViewOwn(data, defaults.sections, k, v);
        data := data[k := Own(v)];
      }
    }

    /** `MergeKey` for the next source key, in terms of the whole merge. */
    method MergeNext(k: string, ghost start: map<string, Json>, source: map<string, Json>, ghost done: set<string>)
      requires Valid() && k in source && k !in done
      requires View() == DeepMerge(start, Restrict(source, done))
      modifies this, defaults
      ensures Valid()
      ensures View() == DeepMerge(start, Restrict(source, done + {k}))
      ensures k in old(data) && old(data)[k].Shared? && source[k].Obj? ==> data[k].Shared?
      ensures forall j :: j != k ==> (j in data <==> j in old(data)) && (j in data ==> data[j] == old(data)[j])
      ensures defaults.sections.Keys == old(defaults.sections).Keys
    {
      MergeStep(start, source, done, k);
      MergeKey(k, source[k]);
    }

    /** `_deep_update(self.config_data, source)`. A source dictionary that
        meets a shared section is merged into the defaults' dictionary. */
    method DeepUpdate(source: map<string, Json>)
      requires Valid()
      modifies this, defaults
      ensures Valid()
      ensures View() == DeepMerge(old(View()), source)
      ensures forall k :: k in old(data) && old(data)[k].Shared? && k in source && source[k].Obj? ==> data[k].Shared?
      ensures defaults.sections.Keys == old(defaults.sections).Keys
    {
      var todo := source.Keys;
      ghost var done: set<string> := {};
      ghost var start := View();
      ghost var data0 := data;
      assert DeepMerge(start, Restrict(source, done)) == start;
      while todo != {}
        invariant Valid()
        invariant todo + done == source.Keys && todo * done == {}
        invariant View() == DeepMerge(start, Restrict(source, done))
        invariant forall j :: j in data0 && data0[j].Shared? && (j in todo || (j in source && source[j].Obj?)) ==>
          j in data && data[j].Shared?
        invariant defaults.sections.Keys == old(defaults.sections).Keys
        decreases todo
      {
        var k :| k in todo;
        MoveKey(todo, done, source.Keys, k);
        MergeNext(k, start, source, done);
        todo := todo - {k};
        done := done + {k};
      }
      assert Restrict(source, done) == source;
    }

    /** Moving key `k` from the keys to do to the keys done keeps them a
        partition of `keys`. */
    lemma MoveKey(todo: set<string>, done: set<string>, keys: set<string>, k: string)
      requires todo + done == keys && todo * done == {} && k in todo
      ensures (todo - {k}) + (done + {k}) == keys && (todo - {k}) * (done + {k}) == {}
      ensures k !in done
    {
      forall x | x in todo
        ensures x !in done
      {
        assert x in done ==> x in todo * done;
      }
    }

    /** `_apply_env_overrides()` over the environment given as a list of
        name and value pairs. */
    method ApplyEnvOverrides(env: seq<(string, string)>)
      requires Valid()
      modifies this, defaults
      ensures Valid()
      ensures View() == EnvApplied(old(View()), env)
    {
      for i := 0 to |env|
        invariant Valid()
        invariant View() == EnvApplied(old(View()), env[..i])
      {
        var (name, value) := env[i];
        assert env[..i + 1][..i] == env[..i];
        if StartsWith(name, EnvPrefix) {
          var keyPath := ReplaceDunder(LowerStr(name[|EnvPrefix|..]));
          Set(keyPath, Str(value));
        }
      }
      assert env[..|env|] == env;
    }

    /** `load()`. Reading and parsing the file is outside the model:
        `loaded` is the parsed document, or `None` when the file is missing
        or cannot be parsed. A document that is not a dictionary fails the
        merge before it changes anything. */
    method Load(loaded: Option<Json>, env: seq<(string, string)>) returns (ok: bool)
      requires Valid()
      modifies this, defaults
      ensures Valid()
      ensures ok <==> loaded.Some? && loaded.value.Obj?
      ensures ok ==> View() == EnvApplied(DeepMerge(old(View()), loaded.value.m), env)
      ensures !ok ==> data == old(data) && defaults.sections == old(defaults.sections)
    {
      if loaded.None? || !loaded.value.Obj? {
        return false;
      }
      DeepUpdate(loaded.value.m);
      ApplyEnvOverrides(env);
      return true;
    }

    /** `self[key]`: a missing key raises `KeyError`, here `None`. */
    function GetItem(key: string): (v: Option<Json>)
      reads this, defaults
      requires Valid()
      ensures v.Some? <==> key in data
      ensures v.Some? && '.' !in key ==> v.value == Get(key, Null)
    {
      if key in data then
        (if '.' !in key then SplitNoSep(key, '.'); GetSingle(View(), key, Null); Some(View()[key])
         else Some(View()[key]))
      else None
    }

    /** `self[key] = value`: the slot becomes this instance's own. */
    method SetItem(key: string, value: Json)
      requires Valid()
      modifies this
      ensures Valid()
      ensures View() == old(View())[key := value]
      ensures data[key] == Own(value)
    {
      data := data[key := Own(value)];
    }

    /** `as_dict()`: a copy with the same top-level entries. */
    function AsDict(): (d: map<string, Json>)
      reads this, defaults
      requires Valid()
      ensures d.Keys == data.Keys
      ensures forall k :: k in d ==> GetItem(k) == Some(d[k])
    {
      View()
    }
  }

  /** Two instances built on the same defaults share their sections: a
      nested `set` on one is seen by `get` on the other. */
  method SharedSectionLeak(defaults: DefaultConfig, section: string, key: string, value: Json) returns (seen: Json)
    requires section in defaults.sections && '.' !in section && '.' !in key
    modifies defaults
    ensures seen == value
  {
    var first := new Config(defaults);
    var second := new Config(defaults);
    var path := section + "." + key;
    assert Split(path, '.') == [section, key] by {
      SplitNoSep(key, '.');
      SplitAtSep(section, key, '.');
    }
    first.Set(path, value);
    assert first.Get(path, Null) == value;
    assert second.data[section] == Shared && first.data[section] == Shared;
    GetFirst(first.View(), [section, key], Null);
    GetFirst(second.View(), [section, key], Null);
    seen := second.Get(path, Null);
  }
}
