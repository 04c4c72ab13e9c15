/** Decoded JSON values, as `json.loads` hands them to the stages, and the dictionary
    accesses the stages perform on them. */
module JsonValue {
  import opened Wrappers

  datatype Json =
    | JNull
    | JBool(b: bool)
    | JNum(n: real)
    | JStr(s: string)
    | JArr(items: seq<Json>)
    | JObj(fields: map<string, Json>)

  /** Python truthiness of a decoded value (`x or default`). */
  predicate Truthy(v: Json) {
    match v
    case JNull => false
    case JBool(b) => b
    case JNum(n) => n != 0.0
    case JStr(s) => s != ""
    case JArr(xs) => xs != []
    case JObj(m) => m != map[]
  }

  /** `d[key]`, raising KeyError (whose str() is the quoted key) when it is absent. */
  function Index(d: map<string, Json>, key: string): (r: Result<Json>)
    ensures r.Ok? <==> key in d
    ensures r.Ok? ==> r.value == d[key]
    ensures r.Raise? ==> r.message == "'" + key + "'"
  {
    if key in d then Ok(d[key]) else Raise("'" + key + "'")
  }

  /** The dictionary `json.loads` returned; subscripting anything else by a string raises TypeError. */
  function AsObject(v: Json): (r: Result<map<string, Json>>)
    ensures r.Ok? <==> v.JObj?
    ensures r.Ok? ==> r.value == v.fields
  {
    if v.JObj? then Ok(v.fields) else Raise("decoded response is not a JSON object")
  }

  /** `d.get(key, default)`. */
  function GetOr(d: map<string, Json>, key: string, default: Json): (r: Json)
    ensures key in d ==> r == d[key]
    ensures key !in d ==> r == default
  {
    if key in d then d[key] else default
  }

  /** The strings of a JSON array whose every element is a string; None for anything else. */
  function AsStrings(v: Json): (r: Option<seq<string>>)
    ensures r.Some? <==> v.JArr? && forall i :: 0 <= i < |v.items| ==> v.items[i].JStr?
    ensures r.Some? ==> |r.value| == |v.items| && forall i :: 0 <= i < |v.items| ==> v.items[i] == JStr(r.value[i])
  {
    if v.JArr? && forall i :: 0 <= i < |v.items| ==> v.items[i].JStr? then
      Some(seq(|v.items|, i requires 0 <= i < |v.items| => v.items[i].s))
    else None
  }
}
