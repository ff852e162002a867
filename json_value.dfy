/** The values a configuration dictionary holds once loaded from JSON or
    YAML: scalars, lists and nested dictionaries. */
module JsonValue {
  datatype Json =
    | Null
    | Bool(b: bool)
    | Num(n: int)
    | Str(s: string)
    | Arr(items: seq<Json>)
    | Obj(m: map<string, Json>)
}
