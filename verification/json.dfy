/** JSON values as exchanged with the REST backend and with browser storage,
    together with the JavaScript notion of truthiness the source relies on
    (`a || b`, `!!x`, `x?.field`). */
module Json {
  import opened Wrappers

  datatype Json =
    | JNull
    | JBool(b: bool)
    | JNum(n: real)
    | JStr(s: string)
    | JArr(items: seq<Json>)
    | JObj(fields: map<string, Json>)

  const EmptyObject: Json := JObj(map[])

  /** JavaScript truthiness of a JSON value. */
  predicate Truthy(v: Json) {
    match v
    case JNull => false
    case JBool(b) => b
    case JNum(n) => n != 0.0
    case JStr(s) => s != ""
    case _ => true
  }

  /** `v?.key` when the field holds a non-empty string, the only message shape
      the model reads; any other value counts as absent. */
  function TextField(v: Json, key: string): (r: Option<string>)
    ensures r.Some? ==> v.JObj? && key in v.fields && v.fields[key] == JStr(r.value)
    ensures r.Some? ==> r.value != ""
    ensures r.None? && v.JObj? && key in v.fields && v.fields[key].JStr? ==> v.fields[key].s == ""
  {
    match v
    case JObj(fields) =>
      if key in fields && fields[key].JStr? && fields[key].s != "" then Some(fields[key].s) else None
    case _ => None
  }
}
