/**
 * Values produced by the JSON and YAML loaders (the loaders themselves are
 * library code and not part of this model), with Python's truthiness,
 * `dict.get` and `str()`.
 */
module Json {
  import opened PyStr

  /** A loaded document. Numbers are integers (floating point is not modelled). */
  datatype Json =
    | JNull
    | JBool(b: bool)
    | JInt(i: int)
    | JStr(s: string)
    | JArr(items: seq<Json>)
    | JObj(fields: map<string, Json>)

  /** A JSON configuration file: missing, not valid JSON, or its decoded content. */
  datatype ConfigFile = Missing | Unreadable | Decoded(content: Json)

  /** Python truthiness: `None`, `False`, `0` and empty strings, lists and dicts are false. */
  predicate Truthy(j: Json)
  {
    match j
    case JNull => false
    case JBool(b) => b
    case JInt(i) => i != 0
    case JStr(s) => s != ""
    case JArr(xs) => xs != []
    case JObj(m) => m != map[]
  }

  /** `d.get(key, default)` on a mapping. */
  function Get(m: map<string, Json>, key: string, default: Json): (r: Json)
    ensures key in m ==> r == m[key]
    ensures key !in m ==> r == default
  {
    if key in m then m[key] else default
  }

  /**
   * `str(value)`: strings are themselves, integers their decimal form,
   * `True`/`False`/`None` their names; lists and dicts are rendered by
   * `containerText`, which stands for Python's `repr` of containers.
   */
  function Text(j: Json, containerText: Json -> string): string
  {
    match j
    case JNull => "None"
    case JBool(b) => if b then "True" else "False"
    case JInt(i) => IntToString(i)
    case JStr(s) => s
    case JArr(_) => containerText(j)
    case JObj(_) => containerText(j)
  }

  /** The value as a Python `str`, when it is one (the check a typed record field performs). */
  function AsString(j: Json): (r: Wrappers.Option<string>)
    ensures r.Some? <==> j.JStr?
  {
    if j.JStr? then Wrappers.Some(j.s) else Wrappers.None
  }

  /** The value as a list of strings, when it is one. */
  function AsStringList(j: Json): (r: Wrappers.Option<seq<string>>)
    ensures r.Some? <==> j.JArr? && forall k :: 0 <= k < |j.items| ==> j.items[k].JStr?
    ensures r.Some? ==> |r.value| == |j.items| && forall k :: 0 <= k < |j.items| ==> j.items[k] == JStr(r.value[k])
  {
    if j.JArr? && forall k :: 0 <= k < |j.items| ==> j.items[k].JStr? then
      Wrappers.Some(seq(|j.items|, k requires 0 <= k < |j.items| && j.items[k].JStr? => j.items[k].s))
    else Wrappers.None
  }
}
