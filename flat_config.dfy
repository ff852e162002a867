/** The flat `Config` of src/microgenesis/config.py: one dictionary of
    settings over three defaults, shallowly updated from a file. */
module FlatConfig {
  import opened Wrappers
  import opened JsonValue

  /** `Config.DEFAULT_CONFIG`. */
  function Defaults(): (d: map<string, Json>)
    ensures d.Keys == {"name", "debug", "log_level"}
    ensures d["name"] == Str("MicroGenesis") && d["debug"] == Bool(false) && d["log_level"] == Str("INFO")
  {
    map["name" := Str("MicroGenesis"), "debug" := Bool(false), "log_level" := Str("INFO")]
  }

  /** The dictionary after `dict.update`, and whether the call raised. */
  datatype Update = Update(data: map<string, Json>, raised: bool)

  /** One element of a sequence given to `dict.update`: the key and value
      it stores, or `None` when `update` raises on it (an element that is
      not iterable, or not of length two, or whose key is not a text). A
      text of two characters is the pair of its two characters. */
  function PairOf(e: Json): (p: Option<(string, Json)>)
    ensures p.Some? ==>
      ((e.Arr? && |e.items| == 2 && e.items[0] == Str(p.value.0) && e.items[1] == p.value.1)
       || (e.Str? && |e.s| == 2 && p.value == ([e.s[0]], Str([e.s[1]]))))
    ensures (e.Null? || e.Bool? || e.Num? || e.Obj?) ==> p.None?
  {
    match e
    case Arr(items) => if |items| == 2 && items[0].Str? then Some((items[0].s, items[1])) else None
    case Str(s) => if |s| == 2 then Some(([s[0]], Str([s[1]]))) else None
    case _ => None
  }

  /** `dict.update` with a sequence: the pairs are stored in order until
      an element raises; those stored before it stay. */
  function UpdatePairs(data: map<string, Json>, items: seq<Json>): Update
    decreases |items|
  {
    if |items| == 0 then Update(data, false)
    else
      match PairOf(items[0])
      case None => Update(data, true)
      case Some(p) => UpdatePairs(data[p.0 := p.1], items[1..])
  }

  /** The characters of a text, each a text of its own: what iterating a
      Python string yields. */
  function Chars(s: string): (r: seq<Json>)
    ensures |r| == |s| && forall i :: 0 <= i < |s| ==> r[i] == Str([s[i]])
  {
    seq(|s|, i requires 0 <= i < |s| => Str([s[i]]))
  }

  /** `self.config_data.update(loaded_config)` for each JSON value the file
      can hold: an object merges; a list or a text is a sequence of pairs;
      null, a boolean or a number is not iterable and raises. */
  function UpdateWith(data: map<string, Json>, loaded: Json): Update {
    match loaded
    case Obj(m) => Update(data + m, false)
    case Arr(items) => UpdatePairs(data, items)
    case Str(s) => UpdatePairs(data, Chars(s))
    case _ => Update(data, true)
  }

  class Config {
    var data: map<string, Json>

    /** `Config(config_path)`: the defaults, then `load()`. Reading the file
        is outside the model: `loaded` is the parsed JSON value, or `None`
        when the file is missing or unreadable or not JSON. */
    constructor (loaded: Option<Json>)
      ensures loaded.None? ==> data == Defaults()
      ensures loaded.Some? ==> data == UpdateWith(Defaults(), loaded.value).data
    {
      data := Defaults();
      new;
      var _ := Load(loaded);
    }

    /** `load()`: the parsed file updates the dictionary; `raised` is set
        when `update` raises, which `load()` does not catch. */
    method Load(loaded: Option<Json>) returns (raised: bool)
      modifies this
      ensures loaded.None? ==> data == old(data) && !raised
      ensures loaded.Some? ==> Update(data, raised) == UpdateWith(old(data), loaded.value)
    {
      raised := false;
      if loaded.Some? {
        var u := UpdateWith(data, loaded.value);
        data, raised := u.data, u.raised;
      }
    }

    /** `get(key, default)`. */
    function Get(key: string, default: Json): (v: Json)
      reads this
      ensures key in data ==> v == data[key]
      ensures key !in data ==> v == default
    {
      if key in data then data[key] else default
    }

    /** `set(key, value)` and `cfg[key] = value`. */
    method Set(key: string, value: Json)
      modifies this
      ensures data == old(data)[key := value]
      ensures forall d :: Get(key, d) == value
      ensures forall k, d :: k != key ==> Get(k, d) == old(Get(k, d))
    {
      data := data[key := value];
    }

    /** `cfg[key]`: a missing key raises `KeyError`, here `None`. */
    function GetItem(key: string): (v: Option<Json>)
      reads this
      ensures v.Some? <==> key in data
      ensures v.Some? ==> v.value == Get(key, Null)
    {
      if key in data then Some(data[key]) else None
    }
  }

  /** Without a file the three defaults are what `get` returns. */
  method FreshDefaults() returns (name: Json, debug: Json, level: Json, missing: Json)
    ensures name == Str("MicroGenesis") && debug == Bool(false) && level == Str("INFO")
    ensures missing == Str("fallback")
  {
    var c := new Config(None);
    name := c.Get("name", Null);
    debug := c.Get("debug", Null);
    level := c.Get("log_level", Null);
    missing := c.Get("nonexistent", Str("fallback"));
  }

  /** An object merges: its keys overwrite, every other key keeps its
      value, and nothing raises. */
  lemma UpdateObject(data: map<string, Json>, m: map<string, Json>)
    ensures !UpdateWith(data, Obj(m)).raised
    ensures UpdateWith(data, Obj(m)).data.Keys == data.Keys + m.Keys
    ensures forall k :: k in UpdateWith(data, Obj(m)).data ==>
      UpdateWith(data, Obj(m)).data[k] == if k in m then m[k] else data[k]
  {
  }

  /** Null, a boolean or a number raises and changes nothing. */
  lemma UpdateScalar(data: map<string, Json>, v: Json)
    requires v.Null? || v.Bool? || v.Num?
    ensures UpdateWith(data, v) == Update(data, true)
  {
  }

  /** A text is a sequence of one-character texts: an empty one changes
      nothing, any other raises at its first character and changes
      nothing. */
  lemma {:induction false} UpdateText(data: map<string, Json>, s: string)
    ensures UpdateWith(data, Str(s)) == Update(data, s != "")
  {
    if s != "" {
      assert PairOf(Chars(s)[0]).None?;
    }
  }

  /** A sequence raises exactly when one of its elements is not a pair. */
  lemma {:induction false} UpdatePairsRaises(data: map<string, Json>, items: seq<Json>)
    ensures UpdatePairs(data, items).raised <==> exists i :: 0 <= i < |items| && PairOf(items[i]).None?
    decreases |items|
  {
    if |items| > 0 {
      match PairOf(items[0])
      case None =>
      case Some(p) =>
        UpdatePairsRaises(data[p.0 := p.1], items[1..]);
        if exists i :: 0 <= i < |items| - 1 && PairOf(items[1..][i]).None? {
          var i :| 0 <= i < |items| - 1 && PairOf(items[1..][i]).None?;
          assert PairOf(items[i + 1]).None?;
        }
        if exists i :: 0 <= i < |items| && PairOf(items[i]).None? {
          var i :| 0 <= i < |items| && PairOf(items[i]).None?;
          assert PairOf(items[1..][i - 1]).None?;
        }
    }
  }

  /** A key that no pair of the sequence names keeps its value (or stays
      absent), whether or not the update raises. */
  lemma {:induction false} UpdatePairsKeeps(data: map<string, Json>, items: seq<Json>, k: string)
    requires forall i :: 0 <= i < |items| && PairOf(items[i]).Some? ==> PairOf(items[i]).value.0 != k
    ensures k in UpdatePairs(data, items).data <==> k in data
    ensures k in data ==> UpdatePairs(data, items).data[k] == data[k]
    decreases |items|
  {
    if |items| > 0 {
      match PairOf(items[0])
      case None =>
      case Some(p) =>
        assert forall i :: 0 <= i < |items| - 1 ==> items[1..][i] == items[i + 1];
        UpdatePairsKeeps(data[p.0 := p.1], items[1..], k);
    }
  }

  /** When nothing raises, the last element's pair is what its key holds. */
  lemma {:induction false} UpdatePairsLastWins(data: map<string, Json>, items: seq<Json>)
    requires |items| > 0 && !UpdatePairs(data, items).raised
    ensures PairOf(items[|items| - 1]).Some?
    ensures var p := PairOf(items[|items| - 1]).value;
      p.0 in UpdatePairs(data, items).data && UpdatePairs(data, items).data[p.0] == p.1
    decreases |items|
  {
    var p := PairOf(items[0]).value;
    if |items| > 1 {
      UpdatePairsLastWins(data[p.0 := p.1], items[1..]);
    }
  }

  /** A shallow load keeps every default the file does not name. */
  lemma LoadKeepsUnnamed(loaded: map<string, Json>, k: string)
    requires k in Defaults() && k !in loaded
    ensures k in UpdateWith(Defaults(), Obj(loaded)).data
    ensures UpdateWith(Defaults(), Obj(loaded)).data[k] == Defaults()[k]
  {
  }
}
