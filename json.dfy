/** Untyped JSON as produced by Go's `encoding/json` into `interface{}`. */
module JsonValue {

  /** A decoded JSON value. Numbers keep their literal text: Go's float64
      conversion is not modelled. */
  datatype Json =
    | JNull
    | JBool(b: bool)
    | JNum(literal: string)
    | JStr(s: string)
    | JArr(elems: seq<Json>)
    | JObj(fields: map<string, Json>)

  type JsonObject = map<string, Json>

  /** The `getString` helper: the value under `key` when it is present and a
      JSON string, otherwise the empty string. */
  function GetString(m: JsonObject, key: string): (r: string)
    ensures key in m && m[key].JStr? ==> r == m[key].s
    ensures !(key in m && m[key].JStr?) ==> r == ""
  {
    if key in m then
      match m[key]
      case JStr(s) => s
      case _ => ""
    else ""
  }

  /** Only the entry under `key` matters to `GetString(_, key)`. */
  lemma GetStringLocal(m: JsonObject, k: string, v: Json, key: string)
    requires k != key
    ensures GetString(m[k := v], key) == GetString(m, key)
  {
  }
}
